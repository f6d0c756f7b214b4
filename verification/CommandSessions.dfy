/**
 What the schedule means for sessions, said without the keys of the queues: one command of a session at
 a time, in the order of submission, and which commands can hold each other up.
 */
module CommandSessions {
  import opened Options
  import opened CommandSchedule

  /** The commands of one session, in order. */
  function OfSession(ds: seq<Dispatch>, session: string): seq<Dispatch> {
    if ds == [] then []
    else if ds[|ds| - 1].sessionId == session then OfSession(ds[..|ds| - 1], session) + [ds[|ds| - 1]]
    else OfSession(ds[..|ds| - 1], session)
  }

  /** Some worker has handed out the result of `d` but still has it at the head of its queue. */
  ghost predicate IsAnswered(s: State, d: Dispatch) {
    exists i: nat :: i < |s.workers| && s.workers[i].Reported? && s.workers[i].dispatch == d
  }

  /** The commands queued under the session's own id that have no result yet. */
  ghost function Pending(s: State, session: string): seq<Dispatch> {
    var queue := if session in s.queues then s.queues[session] else [];
    if queue != [] && IsAnswered(s, queue[0]) then queue[1..] else queue
  }

  ghost predicate IsBusyWith(s: State, i: nat, d: Dispatch) {
    i < |s.workers| && (s.workers[i].Executing? || s.workers[i].Reported?) && s.workers[i].dispatch == d
  }

  lemma OfSessionAppend(ds: seq<Dispatch>, d: Dispatch, session: string)
    ensures OfSession(ds + [d], session) ==
            if d.sessionId == session then OfSession(ds, session) + [d] else OfSession(ds, session)
  {
    assert (ds + [d])[..|ds|] == ds;
  }

  lemma {:induction false} OfSessionConcat(a: seq<Dispatch>, b: seq<Dispatch>, session: string)
    ensures OfSession(a + b, session) == OfSession(a, session) + OfSession(b, session)
  {
    if b == [] {
      assert a + b == a;
    } else {
      var n := |b| - 1;
      OfSessionConcat(a, b[..n], session);
      assert a + b == (a + b[..n]) + [b[n]];
      OfSessionAppend(a + b[..n], b[n], session);
    }
  }

  /** All commands of a session have the same key. */
  lemma {:induction false} SessionIsOneKey(ds: seq<Dispatch>, session: string)
    requires session != ""
    ensures OfSession(Filter(ds, session), session) == OfSession(ds, session)
  {
    if ds != [] {
      var n := |ds| - 1;
      SessionIsOneKey(ds[..n], session);
      OfSessionAppend(Filter(ds[..n], session), ds[n], session);
    }
  }

  /** Two workers busy with commands of one session are one worker. */
  lemma OneWorkerPerSession(workerCount: int, events: seq<Event>, i: nat, j: nat, c: Dispatch, d: Dispatch)
    requires c.sessionId != "" && c.sessionId == d.sessionId
    requires IsBusyWith(Run(Init(workerCount), events), i, c) && IsBusyWith(Run(Init(workerCount), events), j, d)
    ensures i == j && c == d
  {
    var s := Run(Init(workerCount), events);
    RunKeepsInv(workerCount, events);
    assert WorkerOk(s, i) && WorkerOk(s, j);
    assert HeldBy(s, c.sessionId, i) && HeldBy(s, c.sessionId, j);
    OneInFlightPerKey(workerCount, events, c.sessionId, i, j);
  }

  /** A command waits in the queue under its session's id; one without a session has a queue of its own. */
  lemma QueuedUnderSession(workerCount: int, events: seq<Event>, name: string, p: nat)
    requires name in Run(Init(workerCount), events).queues && p < |Run(Init(workerCount), events).queues[name]|
    ensures
      var d := Run(Init(workerCount), events).queues[name][p];
      name == if d.sessionId == "" then "cmd:" + d.cmdId else d.sessionId
  {
    RunKeepsInv(workerCount, events);
    assert QueueOk(Run(Init(workerCount), events), name);
  }

  /**
   Two commands in one queue are of one session, or one of them has no session and the other's session is
   named after its id.
   */
  lemma QueueIsShared(workerCount: int, events: seq<Event>, name: string, p: nat, q: nat)
    requires name in Run(Init(workerCount), events).queues
    requires p < q < |Run(Init(workerCount), events).queues[name]|
    ensures
      var (c, d) := (Run(Init(workerCount), events).queues[name][p], Run(Init(workerCount), events).queues[name][q]);
      || (c.sessionId != "" && c.sessionId == d.sessionId)
      || (c.sessionId == "" && d.sessionId == "cmd:" + c.cmdId)
      || (d.sessionId == "" && c.sessionId == "cmd:" + d.cmdId)
      || (c.sessionId == d.sessionId == "" && c.cmdId == d.cmdId)
  {
    var queue := Run(Init(workerCount), events).queues[name];
    QueuedUnderSession(workerCount, events, name, p);
    QueuedUnderSession(workerCount, events, name, q);
    if queue[p].sessionId == queue[q].sessionId == "" {
      assert queue[p].cmdId == ("cmd:" + queue[p].cmdId)[4..] == queue[q].cmdId;
    }
  }

  lemma PendingIsRemaining(s: State, session: string)
    requires Inv(s)
    ensures Pending(s, session) == Remaining(s, session)
  {
    assert KeyOk(s, session) && QueueOk(s, session);
    ReporterIsTallied(s, session);
    var queue := QueueOf(s, session);
    if HasReporter(s, session) {
      var i: nat :| HeldBy(s, session, i) && s.workers[i].Reported?;
      assert WorkerOk(s, i);
    }
    if queue != [] && IsAnswered(s, queue[0]) {
      var i: nat :| i < |s.workers| && s.workers[i].Reported? && s.workers[i].dispatch == queue[0];
      assert WorkerOk(s, i) && HeldBy(s, session, i);
    }
  }

  /** The commands of a session get their results in the order of submission, and the others wait in that order. */
  lemma SessionIsFifo(workerCount: int, events: seq<Event>, session: string)
    requires session != ""
    ensures
      var s := Run(Init(workerCount), events);
      OfSession(s.submitted, session) == OfSession(s.reported, session) + OfSession(Pending(s, session), session)
  {
    var s := Run(Init(workerCount), events);
    RunKeepsInv(workerCount, events);
    assert KeyOk(s, session);
    PendingIsRemaining(s, session);
    SessionIsOneKey(s.submitted, session);
    SessionIsOneKey(s.reported, session);
    OfSessionConcat(Filter(s.reported, session), Remaining(s, session), session);
  }

  /** A command is refused for one of four reasons, and otherwise it is the newest accepted one. */
  lemma SubmitIsAnswered(workerCount: int, events: seq<Event>, d: Dispatch, wake: Option<nat>)
    requires Enabled(Run(Init(workerCount), events), SubmitEvent(d, wake))
    ensures
      var s := Run(Init(workerCount), events);
      var r := Step(s, SubmitEvent(d, wake));
      var check := SubmitCheck(s, d);
      var isKnown := exists i: nat :: i < |s.submitted| && s.submitted[i].cmdId == d.cmdId;
      && (check == Some(InvalidCommandId) <==> d.cmdId == "")
      && (check == Some(InvalidCommandType) <==> d.cmdId != "" && d.command.kind == "")
      && (check == Some(Closed) <==> d.cmdId != "" && d.command.kind != "" && s.closed)
      && (check == Some(DuplicateCommand) <==> d.cmdId != "" && d.command.kind != "" && !s.closed && isKnown)
      && (r.submitted == s.submitted + [d] <==> d.cmdId != "" && d.command.kind != "" && !s.closed && !isKnown)
      && (r.submitted != s.submitted + [d] ==> r == s)
  {
    var s := Run(Init(workerCount), events);
    RunKeepsInv(workerCount, events);
    assert SubmitCheck(s, d).Some? ==> Step(s, SubmitEvent(d, wake)) == s;
    assert |s.submitted| != |s.submitted + [d]|;
  }

  /** A worker's result is for the command it took, and says how the handler ended. */
  lemma ResultIsReported(workerCount: int, events: seq<Event>, w: nat, outcome: Outcome)
    requires Enabled(Run(Init(workerCount), events), ReportEvent(w, outcome))
    ensures
      var s := Run(Init(workerCount), events);
      var r := Step(s, ReportEvent(w, outcome));
      var d := s.workers[w].dispatch;
      && |r.results| == |s.results| + 1 && s.results == r.results[..|s.results|]
      && r.reported == s.reported + [d] && d in s.submitted
      && var result := r.results[|s.results|];
         && result.cmdId == d.cmdId && result.sessionId == d.sessionId
         && (result.ok <==> outcome.Returned?) && (result.ok ==> result.payload == outcome.payload)
  {
    var s := Run(Init(workerCount), events);
    RunKeepsInv(workerCount, events);
    var r := Step(s, ReportEvent(w, outcome));
    StepKeepsInv(s, ReportEvent(w, outcome));
    OccursAt(r.reported, |s.reported|);
    ReportedWereSubmitted(r, s.workers[w].dispatch);
    OccursSomewhere(r.submitted, s.workers[w].dispatch);
  }

  /** An accepted command of a session stands last in that session's queue. */
  lemma AcceptedIsQueued(s: State, d: Dispatch, wake: Option<nat>)
    requires Enabled(s, SubmitEvent(d, wake)) && SubmitCheck(s, d).None? && d.sessionId != ""
    ensures
      var r := Step(s, SubmitEvent(d, wake));
      && d.sessionId in r.queues && r.queues[d.sessionId] == QueueOf(s, d.sessionId) + [d]
      && forall name :: name != d.sessionId ==> QueueOf(r, name) == QueueOf(s, name)
  {
  }

  lemma {:induction false} WakeAllKeepsCount(ws: seq<Worker>)
    ensures |WakeAll(ws)| == |ws|
  {
    if ws != [] {
      WakeAllKeepsCount(ws[1..]);
    }
  }

  /** The pool keeps its size, and only closing closes it. */
  lemma {:induction false} PoolIsFixed(workerCount: int, events: seq<Event>)
    ensures
      var s := Run(Init(workerCount), events);
      && |s.workers| == (if workerCount > 1 then workerCount else 1)
      && (s.closed <==> exists i: nat :: i < |events| && events[i].CloseEvent?)
  {
    if events != [] {
      var n := |events| - 1;
      PoolIsFixed(workerCount, events[..n]);
      var before := Run(Init(workerCount), events[..n]);
      WakeAllKeepsCount(before.workers);
      if i: nat :| i < |events[..n]| && events[..n][i].CloseEvent? {
        assert events[i].CloseEvent?;
      }
      if i: nat :| i < |events| && events[i].CloseEvent? {
        assert i == n || events[..n][i].CloseEvent?;
      }
    }
  }

  /** Work is not held back: a worker that looks while a key is ready takes the command at the head of its queue. */
  lemma ReadyWorkIsTaken(workerCount: int, events: seq<Event>, w: nat)
    requires Enabled(Run(Init(workerCount), events), NextEvent(w))
    requires Run(Init(workerCount), events).ready != []
    ensures
      var s := Run(Init(workerCount), events);
      var name := s.ready[0];
      && name in s.queues && s.queues[name] != []
      && IsBusyWith(Step(s, NextEvent(w)), w, s.queues[name][0])
  {
    var s := Run(Init(workerCount), events);
    RunKeepsInv(workerCount, events);
    CountAt(s.ready, 0);
    assert KeyOk(s, s.ready[0]);
  }

  /** A command whose session has nothing waiting is ready at once. */
  lemma IdleSessionIsReady(workerCount: int, events: seq<Event>, d: Dispatch, wake: Option<nat>)
    requires Enabled(Run(Init(workerCount), events), SubmitEvent(d, wake))
    requires SubmitCheck(Run(Init(workerCount), events), d).None? && d.sessionId != ""
    requires d.sessionId !in Run(Init(workerCount), events).queues
    ensures
      var s := Run(Init(workerCount), events);
      Step(s, SubmitEvent(d, wake)).ready == s.ready + [d.sessionId]
  {
    RunKeepsInv(workerCount, events);
    assert KeyOk(Run(Init(workerCount), events), d.sessionId);
  }
}
