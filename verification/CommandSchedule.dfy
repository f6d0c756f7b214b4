/**
 How agent commands are scheduled onto a fixed pool of workers: at most one command of a session is
 in flight, commands of one session run in the order they were submitted, and closing the executor
 drains everything.

 A step is one critical section of the executor, or the moment a worker hands out a result. Which
 sleeping worker a signal wakes is left open. The class in Executor.dfy performs the same steps on
 mutable fields.
 */
module CommandSchedule {
  import opened Options

  type Key = string

  datatype Command = Command(kind: string, payload: string)

  datatype Dispatch = Dispatch(cmdId: string, sessionId: string, command: Command)

  /** Commands of one session share a queue; a command without a session has one of its own. */
  function KeyOf(d: Dispatch): Key {
    if d.sessionId == "" then "cmd:" + d.cmdId else d.sessionId
  }

  // Results

  /** How a handler ended. A failure may carry a result code of its own. */
  datatype Outcome = Returned(payload: string) | Failed(code: string, message: string) | Panicked(reason: string)

  datatype ResultError = ResultError(code: string, message: string)

  datatype CommandResult =
    CommandResult(cmdId: string, sessionId: string, ok: bool, payload: string, error: Option<ResultError>)

  /** The result of a command: a failed or panicking handler still produces one. */
  function Execute(d: Dispatch, outcome: Outcome): (r: CommandResult)
    ensures r.cmdId == d.cmdId && r.sessionId == d.sessionId
    ensures (r.ok <==> outcome.Returned?) && (r.ok <==> r.error.None?)
    ensures r.payload == if r.ok then outcome.payload else ""
    ensures r.error.Some? ==> r.error.value.code != ""
    ensures outcome.Failed? ==>
              && r.error.value.message == outcome.message
              && (r.error.value.code != outcome.code ==> outcome.code == "" && r.error.value.code == "COMMAND_FAILED")
    ensures outcome.Panicked? ==>
              r.error.value == ResultError("COMMAND_FAILED", "command panicked: " + outcome.reason)
  {
    match outcome
    case Returned(payload) => CommandResult(d.cmdId, d.sessionId, true, payload, None)
    case Failed(code, message) =>
      var shown := if code == "" then "COMMAND_FAILED" else code;
      CommandResult(d.cmdId, d.sessionId, false, "", Some(ResultError(shown, message)))
    case Panicked(reason) =>
      CommandResult(d.cmdId, d.sessionId, false, "", Some(ResultError("COMMAND_FAILED", "command panicked: " + reason)))
  }

  // State

  /**
   A worker is about to look for work, asleep, woken up but not yet running again, executing the
   command at the head of a queue, about to give that queue back, or gone.
   */
  datatype Worker =
    | Entering
    | Waiting
    | Signalled
    | Executing(key: Key, dispatch: Dispatch)
    | Reported(key: Key, dispatch: Dispatch)
    | Exited

  /** The fields of the executor, its workers, and what has happened so far. */
  datatype State = State(
    queues: map<Key, seq<Dispatch>>,
    ready: seq<Key>,
    scheduled: set<Key>,
    accepted: set<string>,
    closed: bool,
    workers: seq<Worker>,
    submitted: seq<Dispatch>,          // every accepted command
    enqueued: seq<Key>,                // every key that became ready
    dispatched: seq<Key>,              // every key that a worker took
    reported: seq<Dispatch>,           // the commands whose results were handed out
    results: seq<CommandResult>)

  function Init(workerCount: int): State {
    State(map[], [], {}, {}, false, seq(if workerCount < 1 then 1 else workerCount, _ => Entering), [], [], [], [], [])
  }

  // ---------------------------------------------------------------------------------------------
  // Counting workers and ready keys
  // ---------------------------------------------------------------------------------------------

  datatype Test = Holds(key: Key) | HasReported(key: Key) | IsWaiting | IsSignalled | IsRunnable | IsReported

  predicate Passes(t: Test, w: Worker) {
    match t
    case Holds(k) => (w.Executing? || w.Reported?) && w.key == k
    case HasReported(k) => w.Reported? && w.key == k
    case IsWaiting => w.Waiting?
    case IsSignalled => w.Signalled?
    case IsRunnable => w.Entering? || w.Signalled?
    case IsReported => w.Reported?
  }

  function One(b: bool): nat {
    if b then 1 else 0
  }

  /** How many workers pass the test. */
  function Tally(ws: seq<Worker>, t: Test): nat {
    if ws == [] then 0 else One(Passes(t, ws[0])) + Tally(ws[1..], t)
  }

  lemma {:induction false} TallyUpdate(ws: seq<Worker>, i: nat, w: Worker, t: Test)
    requires i < |ws|
    ensures Tally(ws[i := w], t) + One(Passes(t, ws[i])) == Tally(ws, t) + One(Passes(t, w))
    ensures Tally(ws, t) >= One(Passes(t, ws[i]))
  {
    if i > 0 {
      assert ws[i := w][1..] == ws[1..][i - 1 := w];
      TallyUpdate(ws[1..], i - 1, w, t);
    } else {
      assert ws[i := w][1..] == ws[1..];
    }
  }

  lemma {:induction false} TallyPositive(ws: seq<Worker>, t: Test)
    ensures Tally(ws, t) > 0 <==> exists i: nat :: i < |ws| && Passes(t, ws[i])
  {
    if ws != [] {
      TallyPositive(ws[1..], t);
      if i: nat :| i < |ws| && Passes(t, ws[i]) {
        assert i > 0 ==> ws[1..][i - 1] == ws[i];
      }
      if i: nat :| i < |ws[1..]| && Passes(t, ws[1..][i]) {
        assert ws[i + 1] == ws[1..][i];
      }
    }
  }

  lemma {:induction false} TallyUnique(ws: seq<Worker>, t: Test, i: nat, j: nat)
    requires i < j < |ws| && Passes(t, ws[i]) && Passes(t, ws[j])
    ensures Tally(ws, t) >= 2
  {
    if i == 0 {
      assert ws[1..][j - 1] == ws[j];
      TallyPositive(ws[1..], t);
    } else {
      TallyUnique(ws[1..], t, i - 1, j - 1);
    }
  }

  /** How often a key is ready. */
  function Count(ready: seq<Key>, k: Key): nat {
    if ready == [] then 0 else One(ready[0] == k) + Count(ready[1..], k)
  }

  lemma {:induction false} CountAppend(ready: seq<Key>, x: Key, k: Key)
    ensures Count(ready + [x], k) == Count(ready, k) + One(x == k)
  {
    if ready == [] {
      assert ready + [x] == [x];
    } else {
      assert (ready + [x])[1..] == ready[1..] + [x];
      CountAppend(ready[1..], x, k);
    }
  }

  lemma {:induction false} CountAt(ready: seq<Key>, i: nat)
    requires i < |ready|
    ensures Count(ready, ready[i]) > 0
  {
    if i > 0 {
      CountAt(ready[1..], i - 1);
    }
  }

  lemma {:induction false} CountTwice(ready: seq<Key>, i: nat, j: nat)
    requires i < j < |ready| && ready[i] == ready[j]
    ensures Count(ready, ready[i]) >= 2
  {
    if i == 0 {
      CountAt(ready[1..], j - 1);
    } else {
      CountTwice(ready[1..], i - 1, j - 1);
    }
  }

  lemma {:induction false} CountPositive(ready: seq<Key>, k: Key)
    ensures Count(ready, k) > 0 <==> k in ready
  {
    if ready != [] {
      CountPositive(ready[1..], k);
      assert ready == [ready[0]] + ready[1..];
    }
  }

  // The commands of one key

  function Filter(ds: seq<Dispatch>, k: Key): seq<Dispatch> {
    if ds == [] then []
    else if KeyOf(ds[|ds| - 1]) == k then Filter(ds[..|ds| - 1], k) + [ds[|ds| - 1]]
    else Filter(ds[..|ds| - 1], k)
  }

  lemma FilterAppend(ds: seq<Dispatch>, d: Dispatch, k: Key)
    ensures Filter(ds + [d], k) == if KeyOf(d) == k then Filter(ds, k) + [d] else Filter(ds, k)
  {
    assert (ds + [d])[..|ds|] == ds;
  }

  // ---------------------------------------------------------------------------------------------
  // Steps
  // ---------------------------------------------------------------------------------------------

  /** Wakes one sleeping worker. */
  function Signal(ws: seq<Worker>, wake: Option<nat>): seq<Worker> {
    if wake.Some? && wake.value < |ws| then ws[wake.value := Signalled] else ws
  }

  /** A signal wakes a sleeping worker, and is lost only when nobody sleeps. */
  ghost predicate WakeOk(ws: seq<Worker>, wake: Option<nat>) {
    match wake
    case Some(i) => i < |ws| && ws[i].Waiting?
    case None => Tally(ws, IsWaiting) == 0
  }

  function WakeAll(ws: seq<Worker>): seq<Worker> {
    if ws == [] then [] else [if ws[0].Waiting? then Signalled else ws[0]] + WakeAll(ws[1..])
  }

  datatype SubmitError = InvalidCommandId | InvalidCommandType | Closed | DuplicateCommand

  function SubmitCheck(s: State, d: Dispatch): Option<SubmitError> {
    if d.cmdId == "" then Some(InvalidCommandId)
    else if d.command.kind == "" then Some(InvalidCommandType)
    else if s.closed then Some(Closed)
    else if d.cmdId in s.accepted then Some(DuplicateCommand)
    else None
  }

  function QueueOf(s: State, k: Key): seq<Dispatch> {
    if k in s.queues then s.queues[k] else []
  }

  function PushReady(s: State, k: Key): State {
    s.(ready := s.ready + [k], enqueued := s.enqueued + [k])
  }

  /** `k` joins the ready keys and one sleeping worker is woken. */
  function MakeReady(s: State, k: Key, wake: Option<nat>): State {
    PushReady(s, k).(workers := Signal(s.workers, wake))
  }

  /** `d` joins its queue. */
  function Enqueue(s: State, d: Dispatch): State {
    s.(accepted := s.accepted + {d.cmdId},
       submitted := s.submitted + [d],
       queues := s.queues[KeyOf(d) := QueueOf(s, KeyOf(d)) + [d]],
       scheduled := s.scheduled + {KeyOf(d)})
  }

  function Submit(s: State, d: Dispatch, wake: Option<nat>): State {
    if SubmitCheck(s, d).Some? then s
    else if KeyOf(d) in s.scheduled then Enqueue(s, d)
    else MakeReady(Enqueue(s, d), KeyOf(d), wake)
  }

  function Head(s: State, k: Key): Dispatch {
    if QueueOf(s, k) == [] then Dispatch("", "", Command("", "")) else QueueOf(s, k)[0]
  }

  /** A worker looks for work: it takes the first ready key, or goes to sleep, or leaves. */
  function Next(s: State, w: nat): State
    requires w < |s.workers|
  {
    if s.ready == [] then s.(workers := s.workers[w := if s.closed then Exited else Waiting])
    else s.(ready := s.ready[1..],
            dispatched := s.dispatched + [s.ready[0]],
            workers := s.workers[w := Executing(s.ready[0], Head(s, s.ready[0]))])
  }

  function Report(s: State, w: nat, outcome: Outcome): State
    requires w < |s.workers| && s.workers[w].Executing?
  {
    var Executing(k, d) := s.workers[w];
    s.(reported := s.reported + [d],
       results := s.results + [Execute(d, outcome)],
       workers := s.workers[w := Reported(k, d)])
  }

  /** Takes the finished command off its queue. */
  function Dequeue(s: State, w: nat): State
    requires w < |s.workers| && s.workers[w].Reported?
  {
    var k := s.workers[w].key;
    var rest := if QueueOf(s, k) == [] then [] else QueueOf(s, k)[1..];
    s.(queues := if rest == [] then s.queues - {k} else s.queues[k := rest],
       scheduled := if rest == [] then s.scheduled - {k} else s.scheduled,
       workers := s.workers[w := Entering])
  }

  /** The finished command leaves its queue; if more wait there, the key is ready again. */
  function Complete(s: State, w: nat, wake: Option<nat>): State
    requires w < |s.workers| && s.workers[w].Reported?
  {
    var r := Dequeue(s, w);
    if s.workers[w].key in r.queues then MakeReady(r, s.workers[w].key, wake) else r
  }

  function Close(s: State): State {
    s.(closed := true, workers := WakeAll(s.workers))
  }

  datatype Event =
    | SubmitEvent(dispatch: Dispatch, wake: Option<nat>)
    | NextEvent(worker: nat)
    | ReportEvent(worker: nat, outcome: Outcome)
    | CompleteEvent(worker: nat, wake: Option<nat>)
    | CloseEvent

  ghost predicate Enabled(s: State, e: Event) {
    match e
    case SubmitEvent(_, wake) => WakeOk(s.workers, wake)
    case NextEvent(w) => w < |s.workers| && (s.workers[w].Entering? || s.workers[w].Signalled?)
    case ReportEvent(w, _) => w < |s.workers| && s.workers[w].Executing?
    case CompleteEvent(w, wake) => w < |s.workers| && s.workers[w].Reported? && WakeOk(s.workers, wake)
    case CloseEvent => true
  }

  /** One step; a step that is not enabled does not happen. */
  ghost function Step(s: State, e: Event): State {
    if !Enabled(s, e) then s
    else
      match e
      case SubmitEvent(d, wake) => Submit(s, d, wake)
      case NextEvent(w) => Next(s, w)
      case ReportEvent(w, outcome) => Report(s, w, outcome)
      case CompleteEvent(w, wake) => Complete(s, w, wake)
      case CloseEvent => Close(s)
  }

  ghost function Run(s: State, events: seq<Event>): State {
    if events == [] then s else Step(Run(s, events[..|events| - 1]), events[|events| - 1])
  }

  // ---------------------------------------------------------------------------------------------
  // The invariant
  // ---------------------------------------------------------------------------------------------

  /** What of a key's queue has no result yet. */
  function Remaining(s: State, k: Key): seq<Dispatch> {
    if QueueOf(s, k) == [] then []
    else if Tally(s.workers, HasReported(k)) > 0 then QueueOf(s, k)[1..]
    else QueueOf(s, k)
  }

  /**
   A scheduled key is ready once or held by one worker, and no other key is either. Its commands get
   results in the order they were submitted, and those without a result are still queued.
   */
  ghost predicate KeyOk(s: State, k: Key) {
    && Count(s.ready, k) + Tally(s.workers, Holds(k)) == One(k in s.queues)
    && (k in s.scheduled <==> k in s.queues)
    && (k in s.queues ==> s.queues[k] != [])
    && Filter(s.submitted, k) == Filter(s.reported, k) + Remaining(s, k)
  }

  /** A busy worker works on the head of the queue it holds. */
  ghost predicate WorkerOk(s: State, i: nat) {
    i < |s.workers| ==>
      match s.workers[i]
      case Executing(k, d) => QueueOf(s, k) != [] && d == QueueOf(s, k)[0] && KeyOf(d) == k
      case Reported(k, d) => QueueOf(s, k) != [] && d == QueueOf(s, k)[0] && KeyOf(d) == k
      case Exited => s.closed
      case _ => true
  }

  ghost predicate AllOf(q: seq<Dispatch>, k: Key) {
    forall j: nat :: j < |q| ==> KeyOf(q[j]) == k
  }

  /** The queue of a key holds only commands of that key. */
  ghost predicate QueueOk(s: State, k: Key) {
    AllOf(QueueOf(s, k), k)
  }

  /** Accepted ids are those of the submitted commands, each of which has its own. */
  ghost predicate IdsOk(s: State) {
    && (forall i: nat :: i < |s.submitted| ==> s.submitted[i].cmdId in s.accepted)
    && (forall i: nat, j: nat :: i < j < |s.submitted| ==> s.submitted[i].cmdId != s.submitted[j].cmdId)
    && (forall id :: id in s.accepted ==> exists i: nat :: i < |s.submitted| && s.submitted[i].cmdId == id)
  }

  ghost predicate ResultsOk(s: State) {
    && |s.results| == |s.reported|
    && forall i: nat :: i < |s.results| ==>
         s.results[i].cmdId == s.reported[i].cmdId && s.results[i].sessionId == s.reported[i].sessionId
  }

  /** While some worker sleeps, enough others have been woken for all the ready keys. */
  ghost predicate WakeUpsOk(s: State) {
    Tally(s.workers, IsWaiting) > 0 ==> !s.closed && |s.ready| <= Tally(s.workers, IsSignalled)
  }

  ghost predicate AllExited(s: State) {
    forall i: nat :: i < |s.workers| ==> s.workers[i].Exited?
  }

  ghost predicate Inv(s: State) {
    && (forall k {:trigger KeyOk(s, k)} :: KeyOk(s, k))
    && (forall k {:trigger QueueOk(s, k)} :: QueueOk(s, k))
    && (forall i: nat {:trigger WorkerOk(s, i)} :: WorkerOk(s, i))
    && IdsOk(s)
    && ResultsOk(s)
    && WakeUpsOk(s)
    && |s.workers| > 0
    && s.enqueued == s.dispatched + s.ready
    && (AllExited(s) ==> s.ready == [])
  }

  // ---------------------------------------------------------------------------------------------
  // Every step keeps the invariant
  // ---------------------------------------------------------------------------------------------

  lemma SignalTally(ws: seq<Worker>, wake: Option<nat>, t: Test)
    requires WakeOk(ws, wake)
    ensures |Signal(ws, wake)| == |ws|
    ensures t != IsWaiting && t != IsSignalled && t != IsRunnable ==> Tally(Signal(ws, wake), t) == Tally(ws, t)
    ensures t == IsWaiting && wake.Some? ==> Tally(Signal(ws, wake), t) + 1 == Tally(ws, t)
    ensures t == IsSignalled && wake.Some? ==> Tally(Signal(ws, wake), t) == Tally(ws, t) + 1
  {
    if wake.Some? {
      TallyUpdate(ws, wake.value, Signalled, t);
    }
  }

  /** Waking a worker changes nothing for the keys. */
  lemma SignalKeepsKey(s: State, wake: Option<nat>, k: Key)
    requires WakeOk(s.workers, wake) && KeyOk(s, k)
    ensures KeyOk(s.(workers := Signal(s.workers, wake)), k)
  {
    SignalTally(s.workers, wake, Holds(k));
    SignalTally(s.workers, wake, HasReported(k));
  }

  lemma HeldTogether(s: State, k: Key)
    requires KeyOk(s, k) && Tally(s.workers, HasReported(k)) > 0
    ensures k in s.queues && Count(s.ready, k) == 0 && Tally(s.workers, Holds(k)) == 1
  {
    TallyPositive(s.workers, HasReported(k));
    TallyPositive(s.workers, Holds(k));
    var i: nat :| i < |s.workers| && Passes(HasReported(k), s.workers[i]);
    assert Passes(Holds(k), s.workers[i]);
  }

  lemma EnqueueKeepsOtherKey(s: State, d: Dispatch, k: Key)
    requires KeyOk(s, k) && KeyOf(d) in s.scheduled && k != KeyOf(d)
    ensures KeyOk(Enqueue(s, d), k)
  {
    FilterAppend(s.submitted, d, k);
  }

  lemma EnqueueKeepsOwnKey(s: State, d: Dispatch)
    requires KeyOk(s, KeyOf(d)) && KeyOf(d) in s.scheduled
    ensures KeyOk(Enqueue(s, d), KeyOf(d))
  {
    var k := KeyOf(d);
    FilterAppend(s.submitted, d, k);
    assert Remaining(Enqueue(s, d), k) == Remaining(s, k) + [d];
  }

  /** A command joins a queue that is scheduled already. */
  lemma EnqueueKeepsKey(s: State, d: Dispatch, k: Key)
    requires KeyOk(s, k) && KeyOk(s, KeyOf(d)) && KeyOf(d) in s.scheduled
    ensures KeyOk(Enqueue(s, d), k)
  {
    if k == KeyOf(d) {
      EnqueueKeepsOwnKey(s, d);
    } else {
      EnqueueKeepsOtherKey(s, d, k);
    }
  }

  /** A command opens a queue of its own, which is ready at once. */
  lemma OpenKeepsKey(s: State, d: Dispatch, k: Key)
    requires KeyOk(s, k) && KeyOk(s, KeyOf(d)) && KeyOf(d) !in s.scheduled
    ensures KeyOk(PushReady(Enqueue(s, d), KeyOf(d)), k)
  {
    FilterAppend(s.submitted, d, k);
    CountAppend(s.ready, KeyOf(d), k);
    if Tally(s.workers, HasReported(k)) > 0 {
      HeldTogether(s, k);
    }
  }

  lemma SubmitKeepsKey(s: State, d: Dispatch, wake: Option<nat>, k: Key)
    requires KeyOk(s, k) && KeyOk(s, KeyOf(d)) && WakeOk(s.workers, wake)
    ensures KeyOk(Submit(s, d, wake), k)
  {
    if KeyOf(d) in s.scheduled {
      EnqueueKeepsKey(s, d, k);
    } else {
      OpenKeepsKey(s, d, k);
      SignalKeepsKey(PushReady(Enqueue(s, d), KeyOf(d)), wake, k);
    }
  }

  lemma SubmitKeepsQueue(s: State, d: Dispatch, wake: Option<nat>, k: Key)
    requires QueueOk(s, k)
    ensures QueueOk(Submit(s, d, wake), k)
  {
    assert QueueOf(Submit(s, d, wake), k)
        == if SubmitCheck(s, d).None? && k == KeyOf(d) then QueueOf(s, k) + [d] else QueueOf(s, k);
  }

  lemma SubmitKeepsWorker(s: State, d: Dispatch, wake: Option<nat>, i: nat)
    requires WorkerOk(s, i) && WakeOk(s.workers, wake)
    ensures WorkerOk(Submit(s, d, wake), i)
  {
  }

  lemma SignalKeepsWorker(s: State, wake: Option<nat>, i: nat)
    requires WorkerOk(s, i) && WakeOk(s.workers, wake)
    ensures WorkerOk(s.(workers := Signal(s.workers, wake)), i)
  {
  }

  lemma SubmitKeepsIds(s: State, d: Dispatch)
    requires IdsOk(s) && d.cmdId !in s.accepted
    ensures IdsOk(Enqueue(s, d))
  {
    var r := Enqueue(s, d);
    forall id | id in r.accepted ensures exists i: nat :: i < |r.submitted| && r.submitted[i].cmdId == id {
      if id in s.accepted {
        var i: nat :| i < |s.submitted| && s.submitted[i].cmdId == id;
        assert r.submitted[i].cmdId == id;
      } else {
        assert r.submitted[|s.submitted|].cmdId == id;
      }
    }
  }

  /** Every ready key that is added wakes a sleeping worker, if there is one. */
  lemma ReadyKeepsWakeUps(s: State, k: Key, wake: Option<nat>)
    requires WakeUpsOk(s) && WakeOk(s.workers, wake)
    ensures WakeUpsOk(MakeReady(s, k, wake))
  {
    SignalTally(s.workers, wake, IsWaiting);
    SignalTally(s.workers, wake, IsSignalled);
  }

  lemma SomebodyIsLeft(s: State)
    requires Inv(s) && !s.closed
    ensures !AllExited(s)
  {
    assert WorkerOk(s, 0);
  }

  lemma SubmitKeepsInv(s: State, d: Dispatch, wake: Option<nat>)
    requires Inv(s) && WakeOk(s.workers, wake)
    ensures Inv(Submit(s, d, wake))
  {
    if SubmitCheck(s, d).None? {
      var r := Submit(s, d, wake);
      forall k ensures KeyOk(r, k) {
        assert KeyOk(s, k) && KeyOk(s, KeyOf(d));
        SubmitKeepsKey(s, d, wake, k);
      }
      forall k ensures QueueOk(r, k) {
        assert QueueOk(s, k);
        SubmitKeepsQueue(s, d, wake, k);
      }
      forall i: nat ensures WorkerOk(r, i) {
        assert WorkerOk(s, i);
        SubmitKeepsWorker(s, d, wake, i);
      }
      SubmitKeepsRest(s, d, wake);
    }
  }

  lemma SubmitKeepsRest(s: State, d: Dispatch, wake: Option<nat>)
    requires Inv(s) && WakeOk(s.workers, wake) && SubmitCheck(s, d).None?
    ensures
      var r := Submit(s, d, wake);
      && IdsOk(r) && ResultsOk(r) && WakeUpsOk(r) && |r.workers| > 0
      && r.enqueued == r.dispatched + r.ready && !AllExited(r)
  {
    SubmitKeepsIds(s, d);
    SomebodyIsLeft(s);
    var i: nat :| i < |s.workers| && !s.workers[i].Exited?;
    assert !Submit(s, d, wake).workers[i].Exited?;
    ReadyKeepsWakeUps(Enqueue(s, d), KeyOf(d), wake);
  }

  // Looking for work

  lemma NextKeepsKey(s: State, w: nat, k: Key)
    requires Enabled(s, NextEvent(w)) && KeyOk(s, k)
    ensures KeyOk(Next(s, w), k)
  {
    var x := Next(s, w).workers[w];
    TallyUpdate(s.workers, w, x, Holds(k));
    TallyUpdate(s.workers, w, x, HasReported(k));
  }

  lemma NextKeepsWorker(s: State, w: nat, i: nat)
    requires Inv(s) && Enabled(s, NextEvent(w))
    ensures WorkerOk(Next(s, w), i)
  {
    assert WorkerOk(s, i);
    if i == w && s.ready != [] {
      assert KeyOk(s, s.ready[0]) && QueueOk(s, s.ready[0]);
    }
  }

  lemma NextKeepsWakeUps(s: State, w: nat)
    requires WakeUpsOk(s) && Enabled(s, NextEvent(w))
    ensures WakeUpsOk(Next(s, w))
  {
    var x := Next(s, w).workers[w];
    TallyUpdate(s.workers, w, x, IsWaiting);
    TallyUpdate(s.workers, w, x, IsSignalled);
  }

  lemma NextKeepsInv(s: State, w: nat)
    requires Inv(s) && Enabled(s, NextEvent(w))
    ensures Inv(Next(s, w))
  {
    var r := Next(s, w);
    forall k ensures KeyOk(r, k) && QueueOk(r, k) {
      assert KeyOk(s, k) && QueueOk(s, k);
      NextKeepsKey(s, w, k);
    }
    forall i: nat ensures WorkerOk(r, i) {
      NextKeepsWorker(s, w, i);
    }
    NextKeepsWakeUps(s, w);
    if s.ready != [] {
      assert !r.workers[w].Exited?;
      assert s.ready == [s.ready[0]] + s.ready[1..];
    }
  }

  // Handing out a result

  lemma ReportKeepsOtherKey(s: State, w: nat, outcome: Outcome, k: Key)
    requires Enabled(s, ReportEvent(w, outcome)) && KeyOk(s, k) && WorkerOk(s, w) && k != s.workers[w].key
    ensures KeyOk(Report(s, w, outcome), k)
  {
    var Executing(key, d) := s.workers[w];
    TallyUpdate(s.workers, w, Reported(key, d), Holds(k));
    TallyUpdate(s.workers, w, Reported(key, d), HasReported(k));
    FilterAppend(s.reported, d, k);
  }

  lemma ReportTallies(s: State, w: nat, outcome: Outcome)
    requires Enabled(s, ReportEvent(w, outcome)) && KeyOk(s, s.workers[w].key)
    ensures
      var k := s.workers[w].key;
      var r := Report(s, w, outcome);
      && Tally(s.workers, HasReported(k)) == 0 && Tally(r.workers, HasReported(k)) == 1
      && Tally(r.workers, Holds(k)) == Tally(s.workers, Holds(k))
  {
    var Executing(k, d) := s.workers[w];
    TallyUpdate(s.workers, w, Reported(k, d), Holds(k));
    TallyUpdate(s.workers, w, Reported(k, d), HasReported(k));
    NobodyElseReported(s, w);
  }

  lemma ReportKeepsOwnKey(s: State, w: nat, outcome: Outcome)
    requires Enabled(s, ReportEvent(w, outcome)) && KeyOk(s, s.workers[w].key) && WorkerOk(s, w)
    ensures KeyOk(Report(s, w, outcome), s.workers[w].key)
  {
    var Executing(k, d) := s.workers[w];
    var r := Report(s, w, outcome);
    ReportTallies(s, w, outcome);
    FilterAppend(s.reported, d, k);
    assert Remaining(r, k) == QueueOf(s, k)[1..];
    MoveHead(Filter(s.reported, k), d, QueueOf(s, k));
  }

  lemma MoveHead(done: seq<Dispatch>, d: Dispatch, queue: seq<Dispatch>)
    requires queue != [] && queue[0] == d
    ensures done + queue == done + [d] + queue[1..]
  {
  }

  lemma ReportKeepsKey(s: State, w: nat, outcome: Outcome, k: Key)
    requires Enabled(s, ReportEvent(w, outcome)) && KeyOk(s, k) && WorkerOk(s, w)
    ensures KeyOk(Report(s, w, outcome), k)
  {
    if k == s.workers[w].key {
      ReportKeepsOwnKey(s, w, outcome);
    } else {
      ReportKeepsOtherKey(s, w, outcome, k);
    }
  }

  /** The worker that executes a command is the only one that holds its key. */
  lemma NobodyElseReported(s: State, w: nat)
    requires w < |s.workers| && s.workers[w].Executing? && KeyOk(s, s.workers[w].key)
    ensures Tally(s.workers, HasReported(s.workers[w].key)) == 0
  {
    var k := s.workers[w].key;
    TallyPositive(s.workers, HasReported(k));
    if i: nat :| i < |s.workers| && Passes(HasReported(k), s.workers[i]) {
      assert Passes(Holds(k), s.workers[i]) && Passes(Holds(k), s.workers[w]);
      TallyUnique(s.workers, Holds(k), if i < w then i else w, if i < w then w else i);
    }
  }

  lemma ReportKeepsInv(s: State, w: nat, outcome: Outcome)
    requires Inv(s) && Enabled(s, ReportEvent(w, outcome))
    ensures Inv(Report(s, w, outcome))
  {
    var r := Report(s, w, outcome);
    var Executing(key, d) := s.workers[w];
    forall k ensures KeyOk(r, k) && QueueOk(r, k) {
      assert KeyOk(s, k) && QueueOk(s, k) && WorkerOk(s, w);
      ReportKeepsKey(s, w, outcome, k);
    }
    forall i: nat ensures WorkerOk(r, i) {
      assert WorkerOk(s, i);
    }
    TallyUpdate(s.workers, w, Reported(key, d), IsWaiting);
    TallyUpdate(s.workers, w, Reported(key, d), IsSignalled);
    assert !r.workers[w].Exited?;
  }

  // Giving a queue back

  lemma {:induction false} ReportedIsHeld(ws: seq<Worker>, k: Key)
    ensures Tally(ws, HasReported(k)) <= Tally(ws, Holds(k))
  {
    if ws != [] {
      ReportedIsHeld(ws[1..], k);
    }
  }

  /** The worker that has handed out the result of a queue's head is the only one that holds the queue. */
  lemma ReportedOnce(s: State, w: nat)
    requires w < |s.workers| && s.workers[w].Reported? && KeyOk(s, s.workers[w].key)
    ensures Tally(s.workers, HasReported(s.workers[w].key)) == 1 == Tally(s.workers, Holds(s.workers[w].key))
    ensures Count(s.ready, s.workers[w].key) == 0 && s.workers[w].key in s.queues
  {
    var k := s.workers[w].key;
    TallyUpdate(s.workers, w, Entering, HasReported(k));
    TallyUpdate(s.workers, w, Entering, Holds(k));
    ReportedIsHeld(s.workers, k);
  }

  lemma DequeueKeepsOtherKey(s: State, w: nat, k: Key)
    requires w < |s.workers| && s.workers[w].Reported? && k != s.workers[w].key && KeyOk(s, k)
    ensures KeyOk(Dequeue(s, w), k)
  {
    TallyUpdate(s.workers, w, Entering, HasReported(k));
    TallyUpdate(s.workers, w, Entering, Holds(k));
  }

  lemma DequeueKeepsOwnKey(s: State, w: nat)
    requires w < |s.workers| && s.workers[w].Reported? && KeyOk(s, s.workers[w].key)
    ensures
      var k := s.workers[w].key;
      var r := Dequeue(s, w);
      KeyOk(if k in r.queues then PushReady(r, k) else r, k)
  {
    var k := s.workers[w].key;
    ReportedOnce(s, w);
    TallyUpdate(s.workers, w, Entering, HasReported(k));
    TallyUpdate(s.workers, w, Entering, Holds(k));
    CountAppend(s.ready, k, k);
    assert Remaining(s, k) == s.queues[k][1..];
  }

  /** Before anybody is woken. */
  lemma RequeueKeepsKey(s: State, w: nat, k: Key)
    requires w < |s.workers| && s.workers[w].Reported? && KeyOk(s, s.workers[w].key) && KeyOk(s, k)
    ensures
      var r := Dequeue(s, w);
      KeyOk(if s.workers[w].key in r.queues then PushReady(r, s.workers[w].key) else r, k)
  {
    if k == s.workers[w].key {
      DequeueKeepsOwnKey(s, w);
    } else {
      DequeueKeepsOtherKey(s, w, k);
      CountAppend(s.ready, s.workers[w].key, k);
    }
  }

  lemma DequeueKeepsSleepers(s: State, w: nat, wake: Option<nat>)
    requires w < |s.workers| && s.workers[w].Reported? && WakeOk(s.workers, wake)
    ensures WakeOk(Dequeue(s, w).workers, wake)
  {
    TallyUpdate(s.workers, w, Entering, IsWaiting);
  }

  lemma CompleteKeepsKey(s: State, w: nat, wake: Option<nat>, k: Key)
    requires Enabled(s, CompleteEvent(w, wake)) && KeyOk(s, s.workers[w].key) && KeyOk(s, k)
    ensures KeyOk(Complete(s, w, wake), k)
  {
    var r := Dequeue(s, w);
    RequeueKeepsKey(s, w, k);
    DequeueKeepsSleepers(s, w, wake);
    if s.workers[w].key in r.queues {
      SignalKeepsKey(PushReady(r, s.workers[w].key), wake, k);
    }
  }

  lemma CompleteKeepsQueue(s: State, w: nat, wake: Option<nat>, k: Key)
    requires Enabled(s, CompleteEvent(w, wake)) && QueueOk(s, k)
    ensures QueueOk(Complete(s, w, wake), k)
  {
    var q := QueueOf(s, k);
    assert QueueOf(Complete(s, w, wake), k) == if k == s.workers[w].key && q != [] then q[1..] else q;
  }

  /** Nobody else works on the queue that is given back. */
  lemma OthersHoldOtherKeys(s: State, w: nat, i: nat)
    requires w < |s.workers| && s.workers[w].Reported? && KeyOk(s, s.workers[w].key)
    requires i < |s.workers| && i != w && (s.workers[i].Executing? || s.workers[i].Reported?)
    ensures s.workers[i].key != s.workers[w].key
  {
    var k := s.workers[w].key;
    ReportedOnce(s, w);
    if s.workers[i].key == k {
      TallyUnique(s.workers, Holds(k), if i < w then i else w, if i < w then w else i);
    }
  }

  lemma CompleteKeepsWorker(s: State, w: nat, wake: Option<nat>, i: nat)
    requires Enabled(s, CompleteEvent(w, wake)) && KeyOk(s, s.workers[w].key) && WorkerOk(s, i)
    ensures WorkerOk(Complete(s, w, wake), i)
  {
    DequeueKeepsSleepers(s, w, wake);
    if i < |s.workers| && i != w && (s.workers[i].Executing? || s.workers[i].Reported?) {
      OthersHoldOtherKeys(s, w, i);
    }
  }

  lemma CompleteKeepsWakeUps(s: State, w: nat, wake: Option<nat>)
    requires Enabled(s, CompleteEvent(w, wake)) && WakeUpsOk(s)
    ensures WakeUpsOk(Complete(s, w, wake))
  {
    TallyUpdate(s.workers, w, Entering, IsWaiting);
    TallyUpdate(s.workers, w, Entering, IsSignalled);
    ReadyKeepsWakeUps(Dequeue(s, w), s.workers[w].key, wake);
  }

  lemma CompleteKeepsInv(s: State, w: nat, wake: Option<nat>)
    requires Inv(s) && Enabled(s, CompleteEvent(w, wake))
    ensures Inv(Complete(s, w, wake))
  {
    var r := Complete(s, w, wake);
    forall k ensures KeyOk(r, k) && QueueOk(r, k) {
      assert KeyOk(s, k) && QueueOk(s, k) && KeyOk(s, s.workers[w].key);
      CompleteKeepsKey(s, w, wake, k);
      CompleteKeepsQueue(s, w, wake, k);
    }
    forall i: nat ensures WorkerOk(r, i) {
      assert WorkerOk(s, i) && KeyOk(s, s.workers[w].key);
      CompleteKeepsWorker(s, w, wake, i);
    }
    CompleteKeepsWakeUps(s, w, wake);
    CompleteKeepsWorkerBusy(s, w, wake);
  }

  lemma CompleteKeepsWorkerBusy(s: State, w: nat, wake: Option<nat>)
    requires Enabled(s, CompleteEvent(w, wake))
    ensures !AllExited(Complete(s, w, wake)) && |Complete(s, w, wake).workers| > 0
  {
    var r := Complete(s, w, wake);
    assert !r.workers[w].Exited?;
  }

  // Closing

  lemma {:induction false} WakeAllTally(ws: seq<Worker>, t: Test)
    ensures |WakeAll(ws)| == |ws|
    ensures t != IsWaiting && t != IsSignalled && t != IsRunnable ==> Tally(WakeAll(ws), t) == Tally(ws, t)
    ensures t == IsWaiting ==> Tally(WakeAll(ws), t) == 0
  {
    if ws != [] {
      WakeAllTally(ws[1..], t);
      assert WakeAll(ws)[1..] == WakeAll(ws[1..]);
    }
  }

  lemma {:induction false} WakeAllAt(ws: seq<Worker>, i: nat)
    requires i < |ws|
    ensures |WakeAll(ws)| == |ws| && WakeAll(ws)[i] == if ws[i].Waiting? then Signalled else ws[i]
  {
    WakeAllTally(ws, IsWaiting);
    if i > 0 {
      WakeAllAt(ws[1..], i - 1);
    }
  }

  lemma CloseKeepsInv(s: State)
    requires Inv(s)
    ensures Inv(Close(s))
  {
    var r := Close(s);
    forall k ensures KeyOk(r, k) && QueueOk(r, k) {
      assert KeyOk(s, k) && QueueOk(s, k);
      WakeAllTally(s.workers, Holds(k));
      WakeAllTally(s.workers, HasReported(k));
    }
    forall i: nat ensures WorkerOk(r, i) {
      assert WorkerOk(s, i);
      if i < |s.workers| {
        WakeAllAt(s.workers, i);
      } else {
        WakeAllTally(s.workers, IsWaiting);
      }
    }
    WakeAllTally(s.workers, IsWaiting);
    if !AllExited(s) {
      var i: nat :| i < |s.workers| && !s.workers[i].Exited?;
      WakeAllAt(s.workers, i);
    }
  }

  lemma StepKeepsInv(s: State, e: Event)
    requires Inv(s)
    ensures Inv(Step(s, e))
  {
    if Enabled(s, e) {
      match e
      case SubmitEvent(d, wake) => SubmitKeepsInv(s, d, wake);
      case NextEvent(w) => NextKeepsInv(s, w);
      case ReportEvent(w, outcome) => ReportKeepsInv(s, w, outcome);
      case CompleteEvent(w, wake) => CompleteKeepsInv(s, w, wake);
      case CloseEvent => CloseKeepsInv(s);
    }
  }

  lemma InitInv(workerCount: int)
    ensures Inv(Init(workerCount))
  {
    var s := Init(workerCount);
    forall k ensures KeyOk(s, k) && QueueOk(s, k) {
      NobodyWorks(s.workers, Holds(k));
    }
    NobodyWorks(s.workers, IsWaiting);
    assert s.workers[0].Entering?;
  }

  lemma {:induction false} NobodyWorks(ws: seq<Worker>, t: Test)
    requires forall i: nat :: i < |ws| ==> ws[i].Entering?
    requires t != IsRunnable
    ensures Tally(ws, t) == 0
  {
    if ws != [] {
      NobodyWorks(ws[1..], t);
    }
  }

  lemma {:induction false} RunKeepsInv(workerCount: int, events: seq<Event>)
    ensures Inv(Run(Init(workerCount), events))
  {
    if events == [] {
      InitInv(workerCount);
    } else {
      RunKeepsInv(workerCount, events[..|events| - 1]);
      StepKeepsInv(Run(Init(workerCount), events[..|events| - 1]), events[|events| - 1]);
    }
  }

  // ---------------------------------------------------------------------------------------------
  // What holds over every run
  // ---------------------------------------------------------------------------------------------

  /** A worker busy with a queue. */
  predicate Busy(w: Worker) {
    w.Executing? || w.Reported?
  }

  ghost predicate HeldBy(s: State, k: Key, i: nat) {
    i < |s.workers| && Busy(s.workers[i]) && s.workers[i].key == k
  }

  ghost predicate ReadyAt(s: State, k: Key, i: nat) {
    i < |s.ready| && s.ready[i] == k
  }

  /** Two workers are never busy with commands of one session. */
  lemma OneInFlightPerKey(workerCount: int, events: seq<Event>, k: Key, i: nat, j: nat)
    requires HeldBy(Run(Init(workerCount), events), k, i) && HeldBy(Run(Init(workerCount), events), k, j)
    ensures i == j
    ensures !exists p: nat :: ReadyAt(Run(Init(workerCount), events), k, p)
  {
    var s := Run(Init(workerCount), events);
    RunKeepsInv(workerCount, events);
    assert KeyOk(s, k);
    if i != j {
      TallyUnique(s.workers, Holds(k), if i < j then i else j, if i < j then j else i);
    }
    TallyPositive(s.workers, Holds(k));
    assert Passes(Holds(k), s.workers[i]);
    if p: nat :| ReadyAt(s, k, p) {
      CountAt(s.ready, p);
    }
  }

  /** A key has queued commands exactly when it is ready, once, or held by a worker. */
  lemma ScheduledOnce(workerCount: int, events: seq<Event>, k: Key)
    ensures
      var s := Run(Init(workerCount), events);
      && (QueueOf(s, k) != [] <==> (exists p: nat :: ReadyAt(s, k, p)) || (exists i: nat :: HeldBy(s, k, i)))
      && (forall p: nat, q: nat :: ReadyAt(s, k, p) && ReadyAt(s, k, q) ==> p == q)
  {
    var s := Run(Init(workerCount), events);
    RunKeepsInv(workerCount, events);
    assert KeyOk(s, k);
    CountPositive(s.ready, k);
    TallyPositive(s.workers, Holds(k));
    if Count(s.ready, k) > 0 {
      var p: nat :| p < |s.ready| && s.ready[p] == k;
      assert ReadyAt(s, k, p);
    }
    if Tally(s.workers, Holds(k)) > 0 {
      var i: nat :| i < |s.workers| && Passes(Holds(k), s.workers[i]);
      assert HeldBy(s, k, i);
    }
    forall i: nat | HeldBy(s, k, i) ensures Tally(s.workers, Holds(k)) > 0 {
      assert Passes(Holds(k), s.workers[i]);
    }
    forall p: nat, q: nat | ReadyAt(s, k, p) && ReadyAt(s, k, q) ensures p == q {
      if p != q {
        CountTwice(s.ready, if p < q then p else q, if p < q then q else p);
      }
    }
  }

  ghost predicate HasReporter(s: State, k: Key) {
    exists i: nat :: HeldBy(s, k, i) && s.workers[i].Reported?
  }

  lemma ReporterIsTallied(s: State, k: Key)
    ensures HasReporter(s, k) <==> Tally(s.workers, HasReported(k)) > 0
  {
    TallyPositive(s.workers, HasReported(k));
    if i: nat :| HeldBy(s, k, i) && s.workers[i].Reported? {
      assert Passes(HasReported(k), s.workers[i]);
    }
    if Tally(s.workers, HasReported(k)) > 0 {
      var i: nat :| i < |s.workers| && Passes(HasReported(k), s.workers[i]);
      assert HeldBy(s, k, i) && s.workers[i].Reported?;
    }
  }

  lemma QueueSplits(s: State, k: Key)
    requires KeyOk(s, k)
    ensures QueueOf(s, k) == (if HasReporter(s, k) then [Head(s, k)] else []) + Remaining(s, k)
  {
    ReporterIsTallied(s, k);
    if HasReporter(s, k) {
      HeldTogether(s, k);
    }
  }

  /** Per key, the commands with results followed by those still queued are the submissions, in order. */
  lemma SessionOrder(workerCount: int, events: seq<Event>, k: Key)
    ensures
      var s := Run(Init(workerCount), events);
      && Filter(s.submitted, k) == Filter(s.reported, k) + Remaining(s, k)
      && QueueOf(s, k) == (if HasReporter(s, k) then [Head(s, k)] else []) + Remaining(s, k)
  {
    var s := Run(Init(workerCount), events);
    RunKeepsInv(workerCount, events);
    assert KeyOk(s, k);
    QueueSplits(s, k);
  }

  /** Ready work never meets a pool in which everybody sleeps: someone is awake to take it. */
  lemma NoLostWakeUp(workerCount: int, events: seq<Event>)
    ensures
      var s := Run(Init(workerCount), events);
      && (Tally(s.workers, IsWaiting) > 0 ==> |s.ready| <= Tally(s.workers, IsSignalled))
      && (s.ready != [] ==> exists i: nat :: i < |s.workers| && !s.workers[i].Waiting? && !s.workers[i].Exited?)
  {
    var s := Run(Init(workerCount), events);
    RunKeepsInv(workerCount, events);
    if s.ready != [] {
      var i: nat :| i < |s.workers| && !s.workers[i].Exited?;
      if s.workers[i].Waiting? {
        TallyPositive(s.workers, IsWaiting);
        assert Passes(IsWaiting, s.workers[i]);
        TallyPositive(s.workers, IsSignalled);
        var j: nat :| j < |s.workers| && Passes(IsSignalled, s.workers[j]);
        assert !s.workers[j].Waiting? && !s.workers[j].Exited?;
      }
    }
  }

  lemma StepExtends(s: State, e: Event)
    ensures s.dispatched <= Step(s, e).dispatched && s.enqueued <= Step(s, e).enqueued
  {
  }

  lemma {:induction false} RunExtends(s: State, events: seq<Event>)
    ensures s.dispatched <= Run(s, events).dispatched && s.enqueued <= Run(s, events).enqueued
  {
    if events != [] {
      RunExtends(s, events[..|events| - 1]);
      StepExtends(Run(s, events[..|events| - 1]), events[|events| - 1]);
    }
  }

  lemma {:induction false} RunConcat(s: State, before: seq<Event>, after: seq<Event>)
    ensures Run(s, before + after) == Run(Run(s, before), after)
  {
    if after == [] {
      assert before + after == before;
    } else {
      RunConcat(s, before, after[..|after| - 1]);
      assert (before + after)[..|before + after| - 1] == before + after[..|after| - 1];
    }
  }

  /** A ready key is taken after exactly as many others as stand before it. */
  lemma ReadyIsFifo(workerCount: int, before: seq<Event>, after: seq<Event>, i: nat)
    requires i < |Run(Init(workerCount), before).ready|
    requires |Run(Init(workerCount), before + after).dispatched| > |Run(Init(workerCount), before).dispatched| + i
    ensures Run(Init(workerCount), before + after).dispatched[|Run(Init(workerCount), before).dispatched| + i]
         == Run(Init(workerCount), before).ready[i]
  {
    RunKeepsInv(workerCount, before);
    RunKeepsInv(workerCount, before + after);
    RunConcat(Init(workerCount), before, after);
    FifoFrom(Run(Init(workerCount), before), after, i);
  }

  lemma FifoFrom(s: State, after: seq<Event>, i: nat)
    requires Inv(s) && Inv(Run(s, after)) && i < |s.ready| && |Run(s, after).dispatched| > |s.dispatched| + i
    ensures Run(s, after).dispatched[|s.dispatched| + i] == s.ready[i]
  {
    var t := Run(s, after);
    RunExtends(s, after);
    TakenInOrder(s.dispatched, s.ready, t.dispatched, t.ready, i);
  }

  /** What was taken from a queue, followed by what is left, is what was put into it. */
  lemma TakenInOrder(taken: seq<Key>, left: seq<Key>, taken2: seq<Key>, left2: seq<Key>, i: nat)
    requires taken + left <= taken2 + left2 && i < |left| && |taken| + i < |taken2|
    ensures taken2[|taken| + i] == left[i]
  {
    var p := |taken| + i;
    assert (taken + left)[p] == left[i];
    assert (taken2 + left2)[p] == taken2[p];
  }

  // Results

  function Occurrences(ds: seq<Dispatch>, d: Dispatch): nat {
    if ds == [] then 0 else Occurrences(ds[..|ds| - 1], d) + One(ds[|ds| - 1] == d)
  }

  lemma {:induction false} OccurrencesInFilter(ds: seq<Dispatch>, d: Dispatch)
    ensures Occurrences(Filter(ds, KeyOf(d)), d) == Occurrences(ds, d)
  {
    if ds != [] {
      OccurrencesInFilter(ds[..|ds| - 1], d);
      OccurrencesAppend(Filter(ds[..|ds| - 1], KeyOf(d)), ds[|ds| - 1], d);
    }
  }

  lemma OccurrencesAppend(ds: seq<Dispatch>, x: Dispatch, d: Dispatch)
    ensures Occurrences(ds + [x], d) == Occurrences(ds, d) + One(x == d)
  {
    assert (ds + [x])[..|ds|] == ds;
  }

  lemma {:induction false} OccurrencesConcat(a: seq<Dispatch>, b: seq<Dispatch>, d: Dispatch)
    ensures Occurrences(a + b, d) == Occurrences(a, d) + Occurrences(b, d)
  {
    if b == [] {
      assert a + b == a;
    } else {
      OccurrencesConcat(a, b[..|b| - 1], d);
      assert a + b == (a + b[..|b| - 1]) + [b[|b| - 1]];
      OccurrencesAppend(a + b[..|b| - 1], b[|b| - 1], d);
    }
  }

  lemma {:induction false} OccursAt(ds: seq<Dispatch>, i: nat)
    requires i < |ds|
    ensures Occurrences(ds, ds[i]) >= 1
  {
    if i < |ds| - 1 {
      OccursAt(ds[..|ds| - 1], i);
    }
  }

  lemma {:induction false} OccursTwice(ds: seq<Dispatch>, i: nat, j: nat)
    requires i < j < |ds| && ds[i] == ds[j]
    ensures Occurrences(ds, ds[i]) >= 2
  {
    if j < |ds| - 1 {
      OccursTwice(ds[..|ds| - 1], i, j);
    } else {
      OccursAt(ds[..|ds| - 1], i);
    }
  }

  lemma {:induction false} OccursSomewhere(ds: seq<Dispatch>, d: Dispatch)
    requires Occurrences(ds, d) > 0
    ensures exists i: nat :: i < |ds| && ds[i] == d
  {
    if ds[|ds| - 1] != d {
      OccursSomewhere(ds[..|ds| - 1], d);
      var i: nat :| i < |ds[..|ds| - 1]| && ds[..|ds| - 1][i] == d;
      assert ds[i] == d;
    }
  }

  lemma {:induction false} OccursOnce(ds: seq<Dispatch>, d: Dispatch)
    requires forall i: nat, j: nat :: i < j < |ds| ==> ds[i].cmdId != ds[j].cmdId
    ensures Occurrences(ds, d) <= 1
  {
    if ds != [] {
      OccursOnce(ds[..|ds| - 1], d);
      if Occurrences(ds[..|ds| - 1], d) > 0 {
        OccursSomewhere(ds[..|ds| - 1], d);
      }
    }
  }

  /** The results handed out are those of submitted commands, none more often than it was submitted. */
  lemma ReportedWereSubmitted(s: State, d: Dispatch)
    requires Inv(s)
    ensures Occurrences(s.submitted, d) == Occurrences(s.reported, d) + Occurrences(Remaining(s, KeyOf(d)), d)
  {
    assert KeyOk(s, KeyOf(d));
    OccurrencesInFilter(s.submitted, d);
    OccurrencesInFilter(s.reported, d);
    OccurrencesConcat(Filter(s.reported, KeyOf(d)), Remaining(s, KeyOf(d)), d);
  }

  lemma ReportedOnceEach(s: State, i: nat, j: nat)
    requires Inv(s) && i < j < |s.reported|
    ensures s.reported[i].cmdId != s.reported[j].cmdId
  {
    var a, b := s.reported[i], s.reported[j];
    OccursAt(s.reported, i);
    OccursAt(s.reported, j);
    ReportedWereSubmitted(s, a);
    ReportedWereSubmitted(s, b);
    OccursSomewhere(s.submitted, a);
    OccursSomewhere(s.submitted, b);
    if a == b {
      OccursTwice(s.reported, i, j);
      OccursOnce(s.submitted, a);
    }
  }

  /** Every result answers an accepted command, and no command gets two. */
  lemma AtMostOneResult(workerCount: int, events: seq<Event>, i: nat)
    requires i < |Run(Init(workerCount), events).results|
    ensures
      var s := Run(Init(workerCount), events);
      && s.results[i].cmdId in s.accepted
      && forall j: nat :: j < |s.results| && j != i ==> s.results[j].cmdId != s.results[i].cmdId
  {
    var s := Run(Init(workerCount), events);
    RunKeepsInv(workerCount, events);
    OccursAt(s.reported, i);
    ReportedWereSubmitted(s, s.reported[i]);
    OccursSomewhere(s.submitted, s.reported[i]);
    forall j: nat | j < |s.results| && j != i ensures s.results[j].cmdId != s.results[i].cmdId {
      ReportedOnceEach(s, if i < j then i else j, if i < j then j else i);
    }
  }

  lemma NobodyLeft(s: State, k: Key)
    requires Inv(s) && AllExited(s)
    ensures s.closed && s.ready == [] && QueueOf(s, k) == []
  {
    assert WorkerOk(s, 0) && KeyOk(s, k);
    TallyPositive(s.workers, Holds(k));
  }

  /** Once every worker has left, all queues are empty and exactly the accepted commands have results. */
  lemma DrainedAfterClose(workerCount: int, events: seq<Event>, d: Dispatch)
    requires AllExited(Run(Init(workerCount), events))
    ensures
      var s := Run(Init(workerCount), events);
      && s.closed && s.ready == [] && s.queues == map[] && s.scheduled == {}
      && Occurrences(s.reported, d) == Occurrences(s.submitted, d)
      && (d.cmdId in s.accepted <==> exists i: nat :: i < |s.results| && s.results[i].cmdId == d.cmdId)
  {
    var s := Run(Init(workerCount), events);
    RunKeepsInv(workerCount, events);
    forall k ensures k !in s.queues && k !in s.scheduled {
      NobodyLeft(s, k);
      assert KeyOk(s, k);
    }
    NobodyLeft(s, KeyOf(d));
    ReportedWereSubmitted(s, d);
    if d.cmdId in s.accepted {
      var i: nat :| i < |s.submitted| && s.submitted[i].cmdId == d.cmdId;
      OccursAt(s.submitted, i);
      NobodyLeft(s, KeyOf(s.submitted[i]));
      ReportedWereSubmitted(s, s.submitted[i]);
      OccursSomewhere(s.reported, s.submitted[i]);
    }
    if i: nat :| i < |s.results| && s.results[i].cmdId == d.cmdId {
      AtMostOneResult(workerCount, events, i);
    }
  }

  // ---------------------------------------------------------------------------------------------
  // Closing ends
  // ---------------------------------------------------------------------------------------------

  /** The work left once the executor is closed. */
  ghost function WorkLeft(s: State): int {
    4 * (|s.submitted| - |s.reported|) + Tally(s.workers, IsRunnable) + 2 * Tally(s.workers, IsReported)
  }

  lemma {:induction false} NoMoreReportsThanSubmissions(s: State)
    requires Inv(s)
    ensures |s.reported| <= |s.submitted|
  {
    forall d ensures Occurrences(s.reported, d) <= Occurrences(s.submitted, d) {
      ReportedWereSubmitted(s, d);
    }
    FewerOccurrences(s.reported, s.submitted);
  }

  lemma {:induction false} FewerOccurrences(a: seq<Dispatch>, b: seq<Dispatch>)
    requires forall d :: Occurrences(a, d) <= Occurrences(b, d)
    ensures |a| <= |b|
  {
    if a != [] {
      var x := a[|a| - 1];
      OccursAt(a, |a| - 1);
      OccursSomewhere(b, x);
      var i: nat :| i < |b| && b[i] == x;
      var rest := b[..i] + b[i + 1..];
      forall d ensures Occurrences(a[..|a| - 1], d) <= Occurrences(rest, d) {
        OccurrencesConcat(b[..i] + [x], b[i + 1..], d);
        OccurrencesAppend(b[..i], x, d);
        OccurrencesConcat(b[..i], b[i + 1..], d);
        assert b == b[..i] + [x] + b[i + 1..];
        assert Occurrences(a, d) == Occurrences(a[..|a| - 1], d) + One(x == d);
      }
      FewerOccurrences(a[..|a| - 1], rest);
    }
  }

  lemma NobodySleepsAfterClose(s: State)
    requires Inv(s) && s.closed
    ensures Tally(s.workers, IsWaiting) == 0
    ensures forall i: nat :: i < |s.workers| ==> !s.workers[i].Waiting?
  {
    TallyPositive(s.workers, IsWaiting);
    forall i: nat | i < |s.workers| ensures !s.workers[i].Waiting? {
      assert Passes(IsWaiting, s.workers[i]) ==> Tally(s.workers, IsWaiting) > 0;
    }
  }

  /** A step that only workers take. */
  predicate WorkerStep(e: Event) {
    e.NextEvent? || e.ReportEvent? || e.CompleteEvent?
  }

  /** After closing, each step of a worker uses up some of the work, whatever else happens. */
  lemma WorkersFinish(s: State, e: Event)
    requires Inv(s) && s.closed && Enabled(s, e)
    ensures Step(s, e).closed && 0 <= WorkLeft(Step(s, e))
    ensures WorkLeft(Step(s, e)) <= WorkLeft(s)
    ensures WorkerStep(e) ==> WorkLeft(Step(s, e)) < WorkLeft(s)
  {
    NobodySleepsAfterClose(s);
    StepKeepsInv(s, e);
    NoMoreReportsThanSubmissions(Step(s, e));
    match e
    case SubmitEvent(_, _) =>
    case NextEvent(w) =>
      TallyUpdate(s.workers, w, Next(s, w).workers[w], IsRunnable);
      TallyUpdate(s.workers, w, Next(s, w).workers[w], IsReported);
    case ReportEvent(w, outcome) =>
      TallyUpdate(s.workers, w, Report(s, w, outcome).workers[w], IsRunnable);
      TallyUpdate(s.workers, w, Report(s, w, outcome).workers[w], IsReported);
    case CompleteEvent(w, wake) =>
      TallyUpdate(s.workers, w, Entering, IsRunnable);
      TallyUpdate(s.workers, w, Entering, IsReported);
      assert wake.None?;
    case CloseEvent =>
      WakeAllOfNone(s.workers);
  }

  lemma {:induction false} WakeAllOfNone(ws: seq<Worker>)
    requires forall i: nat :: i < |ws| ==> !ws[i].Waiting?
    ensures WakeAll(ws) == ws
  {
    if ws != [] {
      assert !ws[0].Waiting?;
      WakeAllOfNone(ws[1..]);
    }
  }

  /** After closing, as long as some worker is left, some worker can take a step. */
  lemma WorkersNeverStick(s: State) returns (e: Event)
    requires Inv(s) && s.closed && !AllExited(s)
    ensures WorkerStep(e) && Enabled(s, e)
  {
    NobodySleepsAfterClose(s);
    var w: nat :| w < |s.workers| && !s.workers[w].Exited?;
    e := match s.workers[w]
      case Executing(_, _) => ReportEvent(w, Returned(""))
      case Reported(_, _) => CompleteEvent(w, None)
      case _ => NextEvent(w);
  }

  /** Every run can be continued, after closing, to one in which all workers have left. */
  lemma {:induction false} CloseReturns(s: State) returns (events: seq<Event>)
    requires Inv(s) && s.closed
    ensures Inv(Run(s, events)) && AllExited(Run(s, events)) && |events| <= WorkLeft(s)
    decreases WorkLeft(s)
  {
    NoMoreReportsThanSubmissions(s);
    if AllExited(s) {
      events := [];
    } else {
      var e := WorkersNeverStick(s);
      StepKeepsInv(s, e);
      WorkersFinish(s, e);
      var rest := CloseReturns(Step(s, e));
      events := [e] + rest;
      RunConcat(s, [e], rest);
      assert [e][..0] == [] && Run(s, []) == s && Run(s, [e]) == Step(s, e);
    }
  }
}
