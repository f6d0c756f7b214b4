/**
 The client of Delivery.dfy and the disk of OutboundLog.dfy together, over any number of process
 lives. A durable message that was accepted in one life reaches the server in the same life or a later
 one, unless a full queue drops it, as long as each new process starts above every number that the
 server has seen or may still see; and exactly then, because otherwise a message can be lost.
 */
module Durability {
  import opened Options
  import opened L = OutboundLog
  import D = Delivery
  import N = StaleNumbers

  /** While no process runs, `client` is what the last one left behind: the server and frames on their way to it. */
  datatype World = World(disk: State, client: D.Client)

  datatype Event =
    | SendEvent(kind: string, payload: string, appended: bool, rewrite: Rewrite, written: bool)
    | AckEvent(upto: int, recent: bool, small: bool, rewrite: Rewrite, noted: bool)
    | WireEvent(step: D.Event)
    | CrashEvent
    | RestartEvent(answers: StartAnswers)

  function Send(w: World, e: Event): World
    requires e.SendEvent?
  {
    var m := Message(w.client.counter + 1, e.kind, e.payload);
    if D.IsVolatile(e.kind) then SendVolatile(w, m, e.written)
    else SendDurable(w, m, e.appended, e.rewrite, e.written)
  }

  function SendVolatile(w: World, m: Message, written: bool): World {
    World(w.disk.(counter := m.seqNo), D.Send(w.client, m, false, false, written).0)
  }

  function SendDurable(w: World, m: Message, appended: bool, rewrite: Rewrite, written: bool): World {
    var (disk, ok) := Push(w.disk, m, appended, rewrite);
    World(disk, D.Send(w.client, m, true, ok, written).0)
  }

  function Acknowledge(w: World, e: Event): World
    requires e.AckEvent? && w.client.link.Some?
  {
    World(if e.upto > 0 then Ack(w.disk, e.upto, e.recent, e.small, e.rewrite, e.noted) else w.disk,
          D.HandleAck(w.client, e.upto))
  }

  function Crash(w: World): World {
    World(w.disk.(running := false), D.Crashed(w.client))
  }

  function Restart(w: World, answers: StartAnswers): World {
    var disk := Start(w.disk, answers);
    World(disk, if disk.running then D.Restarted(w.client, disk) else w.client)
  }

  /** Sending and acknowledging involve the disk; frames on their way may arrive when the process is gone. */
  predicate Enabled(w: World, e: Event) {
    match e
    case SendEvent(kind, payload, _, _, written) =>
      w.disk.running && D.Enabled(w.client, D.SendEvent(kind, payload, true, written))
    case AckEvent(a, _, _, _, _) => w.disk.running && D.Enabled(w.client, D.Event.AckEvent(a))
    case WireEvent(step) => !step.SendEvent? && !step.AckEvent? && (w.disk.running || step.LateReceiveEvent?)
    case CrashEvent => w.disk.running
    case RestartEvent(_) => !w.disk.running
  }

  function Step(w: World, e: Event): World {
    if !Enabled(w, e) then w
    else
      match e
      case SendEvent(_, _, _, _, _) => Send(w, e)
      case AckEvent(_, _, _, _, _) => Acknowledge(w, e)
      case WireEvent(step) => w.(client := D.Step(w.client, step))
      case CrashEvent => Crash(w)
      case RestartEvent(answers) => Restart(w, answers)
  }

  function Run(w: World, events: seq<Event>): World {
    if events == [] then w else Step(Run(w, events[..|events| - 1]), events[|events| - 1])
  }

  /** The first life, started on whatever an earlier version left on disk when the server had seen `mark`. */
  function FirstLife(disk: State, answers: StartAnswers, mark: int): World {
    var started := Start(disk, answers);
    World(started, D.Started(started, mark))
  }

  /** A process that started now would use only numbers that are new to the server. */
  ghost predicate StartsFresh(w: World) {
    D.UsedUpto(w.client, StartCounter(w.disk))
  }

  /** Every process in the run that gets to work does so with numbers that are new to the server. */
  ghost predicate FreshRun(w: World, events: seq<Event>) {
    || events == []
    || (var before, e := Run(w, events[..|events| - 1]), events[|events| - 1];
        && FreshRun(w, events[..|events| - 1])
        && (e.RestartEvent? && Enabled(before, e) && Start(before.disk, e.answers).running ==> StartsFresh(before)))
  }

  // ---------------------------------------------------------------------------------------------
  // What holds whatever numbers the server has seen
  // ---------------------------------------------------------------------------------------------

  /** Client and disk agree while the process runs. */
  predicate Mirrored(w: World) {
    w.client.queue == w.disk.messages && w.client.counter == w.disk.counter && w.client.maxSize == w.disk.maxSize
  }

  ghost predicate DiskInv(w: World) {
    && L.Inv(w.disk) && AllAbove(Reload(w.disk), 1)
    && D.ClientOk(w.client)
    && (if w.disk.running then Mirrored(w) else w.client.link.None?)
  }

  lemma {:induction false} WithoutKeepsMember(ms: seq<Message>, unwritten: set<int>, m: Message)
    requires m in ms && m.seqNo !in unwritten
    ensures m in Without(ms, unwritten)
  {
    if ms[0] != m {
      assert m in ms[1..];
      WithoutKeepsMember(ms[1..], unwritten, m);
    }
  }

  /** The disk after the volatile messages have used up some numbers. */
  lemma CountKeepsDisk(s: State, n: int)
    requires L.Inv(s) && s.running && n > s.counter
    ensures L.Inv(s.(counter := n))
  {
  }

  /** The client's part of a durable send does to the queue what the disk's part does. */
  lemma PushIsEnqueue(w: World, m: Message, appended: bool, rewrite: Rewrite, written: bool)
    requires Mirrored(w) && w.disk.maxSize >= 1 && m.seqNo == w.client.counter + 1
    ensures
      var r := SendDurable(w, m, appended, rewrite, written);
      && Mirrored(r) && r.disk.running == w.disk.running && r.disk.saved == w.disk.saved
      && r.disk.unwritten <= w.disk.unwritten + (if appended then {} else {m.seqNo})
      && (m in r.client.accepted && m !in w.client.accepted ==> appended)
      && r.client.accepted <= w.client.accepted + {m}
      && r.client.lastAcked == w.client.lastAcked
  {
  }

  lemma AckIsHandled(w: World, e: Event)
    requires Mirrored(w) && e.AckEvent? && w.client.link.Some?
    ensures
      var r := Acknowledge(w, e);
      && Mirrored(r) && r.disk.running == w.disk.running && r.disk.unwritten <= w.disk.unwritten
      && r.disk.saved == (if e.noted && e.upto > 0 then e.upto else w.disk.saved)
      && (r.disk.log == w.disk.log || r.disk.log == r.disk.messages)
  {
  }

  lemma {:induction false} AboveIsWithin(ms: seq<Message>, a: int, b: int)
    requires AllAbove(ms, b)
    ensures AllAbove(Above(ms, a), b)
  {
    AboveKeepsFloor(ms, a, b);
  }

  /** What a restart finds stays above the number that greetings reserve. */
  lemma PushKeepsReserve(s: State, m: Message, appended: bool, rewrite: Rewrite)
    requires AllAbove(Reload(s), 1) && AllAbove(s.messages, 1) && m.seqNo > 1
    ensures AllAbove(Reload(Push(s, m, appended, rewrite).0), 1)
  {
    PushedMemory(s, m, appended, rewrite);
    AboveAppend(s.log, m, s.saved);
    AboveIsWithin(MakeRoom(s).messages + [m], s.saved, 1);
  }

  lemma AckKeepsReserve(s: State, a: int, recent: bool, small: bool, rewrite: Rewrite, noted: bool)
    requires AllAbove(Reload(s), 1) && AllAbove(s.messages, 1) && a > 0
    ensures AllAbove(Reload(Ack(s, a, recent, small, rewrite, noted)), 1)
  {
    var r := Ack(s, a, recent, small, rewrite, noted);
    AboveIsAbove(r.log, a);
    AboveKeepsFloor(s.messages, a, 1);
    AboveIsWithin(Above(s.messages, a), r.saved, 1);
  }

  lemma QueueIsReserved(w: World)
    requires Mirrored(w) && D.QueueOk(w.client)
    ensures AllAbove(w.disk.messages, 1) && w.client.counter >= 1
  {
  }

  lemma VolatileSendKeepsDisk(w: World, m: Message, written: bool)
    requires DiskInv(w) && w.disk.running && m.seqNo == w.client.counter + 1
    requires !(w.client.link.Some? && w.client.link.value.phase.Replaying?)
    ensures DiskInv(SendVolatile(w, m, written))
  {
    CountKeepsDisk(w.disk, m.seqNo);
    D.SendKeepsClient(w.client, m, false, false, written);
  }

  lemma DurableSendKeepsDisk(w: World, m: Message, appended: bool, rewrite: Rewrite, written: bool)
    requires DiskInv(w) && w.disk.running && m.seqNo == w.client.counter + 1
    requires !(w.client.link.Some? && w.client.link.value.phase.Replaying?)
    ensures DiskInv(SendDurable(w, m, appended, rewrite, written))
  {
    var (_, ok) := Push(w.disk, m, appended, rewrite);
    PushIsEnqueue(w, m, appended, rewrite, written);
    PushKeepsInv(w.disk, m, appended, rewrite);
    QueueIsReserved(w);
    PushKeepsReserve(w.disk, m, appended, rewrite);
    D.SendKeepsClient(w.client, m, true, ok, written);
  }

  lemma SendKeepsDisk(w: World, e: Event)
    requires DiskInv(w) && e.SendEvent? && Enabled(w, e)
    ensures DiskInv(Send(w, e))
  {
    var m := Message(w.client.counter + 1, e.kind, e.payload);
    if D.IsVolatile(e.kind) {
      VolatileSendKeepsDisk(w, m, e.written);
    } else {
      DurableSendKeepsDisk(w, m, e.appended, e.rewrite, e.written);
    }
  }

  lemma AcknowledgeKeepsDisk(w: World, e: Event)
    requires DiskInv(w) && e.AckEvent? && Enabled(w, e)
    ensures DiskInv(Acknowledge(w, e))
  {
    AckIsHandled(w, e);
    QueueIsReserved(w);
    D.AckKeepsClient(w.client, e.upto);
    if e.upto > 0 {
      AckKeepsInv(w.disk, e.upto, e.recent, e.small, e.rewrite, e.noted);
      AckKeepsReserve(w.disk, e.upto, e.recent, e.small, e.rewrite, e.noted);
    }
  }

  lemma WireKeepsDisk(w: World, step: D.Event)
    requires DiskInv(w) && Enabled(w, WireEvent(step))
    ensures DiskInv(w.(client := D.Step(w.client, step)))
  {
    D.StepKeepsClient(w.client, step);
    D.WireStepKeepsQueue(w.client, step);
  }

  lemma CrashKeepsDisk(w: World)
    requires DiskInv(w)
    ensures DiskInv(Crash(w))
  {
    if w.client.link.Some? {
      D.DisconnectKeepsClient(w.client);
    }
  }

  /** Whether or not a start succeeds, the messages that it finds are those of the disk before. */
  lemma StartFindsReload(s: State, answers: StartAnswers)
    requires DiskOk(s) && !s.running && AllAbove(Reload(s), 1)
    ensures
      var r := Start(s, answers);
      && Reload(r) == Reload(s)
      && (r.running ==> r.messages == Reload(s))
  {
    AboveIsAbove(s.log, s.saved);
    assert AllAbove(Reload(s), Max(s.saved, 1));
    RebasedKeeps(Reload(s), Max(s.saved, 1));
    AboveTwice(s.log, s.saved, s.saved);
  }

  lemma RestartKeepsDisk(w: World, answers: StartAnswers)
    requires DiskInv(w) && !w.disk.running
    ensures DiskInv(Restart(w, answers))
  {
    StartKeepsInv(w.disk, answers);
    StartFindsReload(w.disk, answers);
    if Start(w.disk, answers).running {
      D.RestartedIsOk(w.client, w.disk, answers);
    }
  }

  lemma StepKeepsDisk(w: World, e: Event)
    requires DiskInv(w)
    ensures DiskInv(Step(w, e))
  {
    if Enabled(w, e) {
      match e
      case SendEvent(_, _, _, _, _) => SendKeepsDisk(w, e);
      case AckEvent(_, _, _, _, _) => AcknowledgeKeepsDisk(w, e);
      case WireEvent(step) => WireKeepsDisk(w, step);
      case CrashEvent => CrashKeepsDisk(w);
      case RestartEvent(answers) => RestartKeepsDisk(w, answers);
    }
  }

  lemma {:induction false} RunKeepsDisk(w: World, events: seq<Event>)
    requires DiskInv(w)
    ensures DiskInv(Run(w, events))
  {
    if events != [] {
      RunKeepsDisk(w, events[..|events| - 1]);
      StepKeepsDisk(Run(w, events[..|events| - 1]), events[|events| - 1]);
    }
  }

  lemma OriginIsOk(found: seq<Message>, q: State, answers: StartAnswers, mark: int)
    requires DiskOk(q) && !q.running && Start(q, answers).running && found == Start(q, answers).messages
    ensures D.ClientOk(D.Started(Start(q, answers), mark))
  {
    var started := Start(q, answers);
    StartKeepsMessages(q, answers);
    StartKeepsInv(q, answers);
    StartedMessages(q, answers);
  }

  lemma FirstLifeDisk(disk: State, answers: StartAnswers, mark: int)
    requires DiskOk(disk) && !disk.running && Start(disk, answers).running
    ensures DiskInv(FirstLife(disk, answers, mark))
  {
    StartKeepsInv(disk, answers);
    StartKeepsMessages(disk, answers);
    StartIsExact(disk, answers);
    OriginIsOk(Start(disk, answers).messages, disk, answers, mark);
  }

  // ---------------------------------------------------------------------------------------------
  // What holds for a message whose number was new when it was accepted
  // ---------------------------------------------------------------------------------------------

  /** `m` is processed, queued while the process runs, or on disk for the next start while it does not. */
  predicate Survives(w: World, m: Message) {
    m in w.client.processed || if w.disk.running then m in w.client.queue else m in Reload(w.disk)
  }

  ghost predicate AllSurvive(w: World) {
    forall m {:trigger Survives(w, m)} :: m in w.client.accepted ==> Survives(w, m)
  }

  /** What is accepted and still owed is secure with the client, and the disk has it. */
  ghost predicate Secure(w: World, m: Message) {
    && D.Secure(w.client, m)
    && (m in w.client.accepted && m !in w.client.processed ==>
          if w.disk.running then m.seqNo !in w.disk.unwritten else m in Reload(w.disk))
  }

  lemma SecureSurvives(w: World, m: Message)
    requires DiskInv(w) && Secure(w, m) && m in w.client.accepted
    ensures Survives(w, m)
  {
  }

  lemma VolatileSendKeepsSecure(w: World, x: Message, written: bool, m: Message)
    requires DiskInv(w) && w.disk.running && Secure(w, m) && x.seqNo == w.client.counter + 1
    requires m in w.client.accepted || D.UsedUpto(w.client, w.client.counter)
    requires !(w.client.link.Some? && w.client.link.value.phase.Replaying?)
    ensures Secure(SendVolatile(w, x, written), m)
  {
    D.SendKeepsSecure(w.client, x, false, false, written, m);
  }

  lemma DurableSendKeepsSecure(w: World, x: Message, appended: bool, rewrite: Rewrite, written: bool, m: Message)
    requires DiskInv(w) && w.disk.running && Secure(w, m) && x.seqNo == w.client.counter + 1
    requires m in w.client.accepted || D.UsedUpto(w.client, w.client.counter)
    requires !(w.client.link.Some? && w.client.link.value.phase.Replaying?)
    ensures Secure(SendDurable(w, x, appended, rewrite, written), m)
  {
    var (_, ok) := Push(w.disk, x, appended, rewrite);
    D.SendKeepsSecure(w.client, x, true, ok, written, m);
    PushIsEnqueue(w, x, appended, rewrite, written);
    if m in w.client.accepted && m !in w.client.processed {
      assert m in w.client.queue && m.seqNo <= w.client.counter;
    }
    NumbersAreHandedOut(w);
  }

  lemma NumbersAreHandedOut(w: World)
    requires DiskInv(w) && w.disk.running
    ensures forall n :: n in w.disk.unwritten ==> n <= w.client.counter
  {
  }

  lemma SendIs(w: World, e: Event)
    requires e.SendEvent?
    ensures
      var m := Message(w.client.counter + 1, e.kind, e.payload);
      Send(w, e) == SendVolatile(w, m, e.written) || Send(w, e) == SendDurable(w, m, e.appended, e.rewrite, e.written)
  {
  }

  lemma SendKeepsSecure(w: World, e: Event, r: World, m: Message)
    requires DiskInv(w) && w.disk.running && Secure(w, m) && e.SendEvent?
    requires m in w.client.accepted || D.UsedUpto(w.client, w.client.counter)
    requires !(w.client.link.Some? && w.client.link.value.phase.Replaying?)
    requires
      var x := Message(w.client.counter + 1, e.kind, e.payload);
      r == SendVolatile(w, x, e.written) || r == SendDurable(w, x, e.appended, e.rewrite, e.written)
    ensures Secure(r, m)
  {
    var x := Message(w.client.counter + 1, e.kind, e.payload);
    VolatileSendKeepsSecure(w, x, e.written, m);
    DurableSendKeepsSecure(w, x, e.appended, e.rewrite, e.written, m);
  }

  lemma AcknowledgeKeepsSecure(w: World, e: Event, m: Message)
    requires DiskInv(w) && Secure(w, m) && e.AckEvent? && Enabled(w, e)
    ensures Secure(Acknowledge(w, e), m)
  {
    AckIsHandled(w, e);
    D.OtherStepKeepsSecure(w.client, D.Event.AckEvent(e.upto), m);
  }

  lemma WireKeepsSecure(w: World, step: D.Event, m: Message)
    requires DiskInv(w) && Secure(w, m) && Enabled(w, WireEvent(step))
    ensures Secure(w.(client := D.Step(w.client, step)), m)
  {
    D.WireStepKeepsQueue(w.client, step);
    if D.Enabled(w.client, step) {
      D.OtherStepKeepsSecure(w.client, step, m);
    }
  }

  /** A crash loses only the memory: what was accepted and is still owed can be read back. */
  lemma CrashKeepsSecure(w: World, m: Message)
    requires DiskInv(w) && w.disk.running && Secure(w, m)
    ensures Secure(Crash(w), m)
  {
    D.CrashKeepsSecure(w.client, m);
    if m in w.client.accepted && m !in w.client.processed {
      WithoutKeepsMember(w.disk.messages, w.disk.unwritten, m);
      AboveSplits(w.disk.log, w.disk.saved, w.disk.floor);
    }
  }

  lemma RestartKeepsSecure(w: World, answers: StartAnswers, m: Message)
    requires DiskInv(w) && !w.disk.running && Secure(w, m)
    ensures Secure(Restart(w, answers), m)
  {
    StartFindsReload(w.disk, answers);
    if Start(w.disk, answers).running {
      StartedMessages(w.disk, answers);
      D.RestartKeepsSecure(w.client, Start(w.disk, answers), m);
    }
  }

  /**
   Whatever happens, restarts below used numbers included, a message that is secure stays secure; and one that
   is accepted becomes so if its number is above all in use.
   */
  lemma StepKeepsSecure(w: World, e: Event, m: Message)
    requires DiskInv(w) && Secure(w, m)
    requires e.SendEvent? ==> m in w.client.accepted || D.UsedUpto(w.client, w.client.counter)
    ensures Secure(Step(w, e), m)
  {
    if Enabled(w, e) {
      match e
      case SendEvent(_, _, _, _, _) =>
        SendIs(w, e);
        SendKeepsSecure(w, e, Send(w, e), m);
      case AckEvent(_, _, _, _, _) => AcknowledgeKeepsSecure(w, e, m);
      case WireEvent(step) => WireKeepsSecure(w, step, m);
      case CrashEvent => CrashKeepsSecure(w, m);
      case RestartEvent(answers) => RestartKeepsSecure(w, answers, m);
    }
  }

  // ---------------------------------------------------------------------------------------------
  // What holds as long as numbers are new to the server
  // ---------------------------------------------------------------------------------------------

  ghost predicate Inv(w: World) {
    && DiskInv(w) && D.UsedUpto(w.client, w.client.counter)
    && (forall m {:trigger Secure(w, m)} :: Secure(w, m))
  }

  lemma SendKeepsUsed(w: World, e: Event)
    requires e.SendEvent? && D.UsedUpto(w.client, w.client.counter)
    ensures D.UsedUpto(Send(w, e).client, Send(w, e).client.counter)
  {
    var m := Message(w.client.counter + 1, e.kind, e.payload);
    var (_, ok) := Push(w.disk, m, e.appended, e.rewrite);
    D.SendKeepsUsed(w.client, m, false, false, e.written);
    D.SendKeepsUsed(w.client, m, true, ok, e.written);
  }

  lemma CrashKeepsUsed(w: World)
    requires DiskInv(w) && D.UsedUpto(w.client, w.client.counter)
    ensures D.UsedUpto(Crash(w).client, Crash(w).client.counter)
  {
    if w.client.link.Some? {
      D.OtherStepKeepsUsed(w.client, D.DisconnectEvent);
    }
  }

  lemma StepKeepsUsed(w: World, e: Event)
    requires DiskInv(w) && D.UsedUpto(w.client, w.client.counter)
    requires e.RestartEvent? && Enabled(w, e) && Start(w.disk, e.answers).running ==> StartsFresh(w)
    ensures D.UsedUpto(Step(w, e).client, Step(w, e).client.counter)
  {
    if Enabled(w, e) {
      match e
      case SendEvent(_, _, _, _, _) => SendKeepsUsed(w, e);
      case AckEvent(a, _, _, _, _) => D.OtherStepKeepsUsed(w.client, D.Event.AckEvent(a));
      case WireEvent(step) => D.StepKeepsUsed(w.client, step);
      case CrashEvent => CrashKeepsUsed(w);
      case RestartEvent(answers) =>
        if Start(w.disk, answers).running {
          StartedMessages(w.disk, answers);
        }
    }
  }

  lemma StepKeepsInv(w: World, e: Event)
    requires Inv(w)
    requires e.RestartEvent? && Enabled(w, e) && Start(w.disk, e.answers).running ==> StartsFresh(w)
    ensures Inv(Step(w, e))
  {
    StepKeepsDisk(w, e);
    StepKeepsUsed(w, e);
    forall m ensures Secure(Step(w, e), m) {
      StepKeepsSecure(w, e, m);
    }
  }

  lemma {:induction false} RunKeepsInv(w: World, events: seq<Event>)
    requires Inv(w) && FreshRun(w, events)
    ensures Inv(Run(w, events))
  {
    if events != [] {
      RunKeepsInv(w, events[..|events| - 1]);
      StepKeepsInv(Run(w, events[..|events| - 1]), events[|events| - 1]);
    }
  }

  lemma FirstLifeInv(disk: State, answers: StartAnswers, mark: int)
    requires D.Starts(disk, answers, mark)
    ensures Inv(FirstLife(disk, answers, mark))
  {
    var w := FirstLife(disk, answers, mark);
    FirstLifeDisk(disk, answers, mark);
    D.StartedInv(disk, answers, mark);
    StartedMessages(disk, answers);
    forall m ensures Secure(w, m) {
      assert D.Secure(w.client, m);
    }
  }

  lemma InvKeepsAll(w: World)
    requires Inv(w)
    ensures AllSurvive(w)
  {
    forall m | m in w.client.accepted ensures Survives(w, m) {
      assert Secure(w, m);
      SecureSurvives(w, m);
    }
  }

  // ---------------------------------------------------------------------------------------------
  // What holds over every run
  // ---------------------------------------------------------------------------------------------

  /**
   Through any number of crashes, failed writes, disconnects and restarts, an accepted message that no
   full queue has dropped has been processed by the server or is still there: in the queue while the
   process runs, and on disk for the next start while it does not. This is so as long as each process
   starts with numbers that are new to the server.
   */
  lemma AcceptedMessagesSurvive(disk: State, answers: StartAnswers, mark: int, events: seq<Event>, m: Message)
    requires D.Starts(disk, answers, mark) && FreshRun(FirstLife(disk, answers, mark), events)
    requires m in Run(FirstLife(disk, answers, mark), events).client.accepted
    ensures
      var w := Run(FirstLife(disk, answers, mark), events);
      m in w.client.processed || if w.disk.running then m in w.client.queue else m in Reload(w.disk)
  {
    FirstLifeInv(disk, answers, mark);
    RunKeepsInv(FirstLife(disk, answers, mark), events);
    InvKeepsAll(Run(FirstLife(disk, answers, mark), events));
    assert Survives(Run(FirstLife(disk, answers, mark), events), m);
  }

  /** Only a send into a full queue takes an accepted message back, and only the oldest one queued. */
  lemma OnlyFullQueuesDrop(w: World, e: Event, m: Message)
    requires m in w.client.accepted && m !in Step(w, e).client.accepted
    ensures e.SendEvent? && !D.IsVolatile(e.kind) && D.Full(w.client) && m == w.client.queue[0]
  {
    if e.WireEvent? && Enabled(w, e) {
      D.WireStepKeepsQueue(w.client, e.step);
    }
  }

  /** After the first start, no start renumbers anything, so it puts the counter at the greatest number on disk. */
  lemma RenumberedAtMostOnce(disk: State, answers: StartAnswers, mark: int, events: seq<Event>, again: StartAnswers)
    requires DiskOk(disk) && !disk.running && Start(disk, answers).running
    requires !Run(FirstLife(disk, answers, mark), events).disk.running
    ensures
      var last := Run(FirstLife(disk, answers, mark), events).disk;
      && StartCounter(last) == Max(Max(1, last.saved), MaxSeq(last.log))
      && (Start(last, again).running ==>
            Start(last, again).messages == Reload(last) && Start(last, again).counter == StartCounter(last))
  {
    FirstLifeDisk(disk, answers, mark);
    RunKeepsDisk(FirstLife(disk, answers, mark), events);
    var last := Run(FirstLife(disk, answers, mark), events).disk;
    StartFindsReload(last, again);
    AboveIsAbove(last.log, last.saved);
    CounterWithoutRebase(last);
    if Start(last, again).running {
      StartedMessages(last, again);
    }
  }
}
