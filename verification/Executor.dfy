/**
 The command executor: the fields that submissions and workers change under its lock. Each method
 is one critical section and takes exactly the step of CommandSchedule.dfy of the same name. `w`
 names the worker that calls it, and `wake` the worker that its signal happens to wake.
 */
module Executor {
  import opened Options
  import S = CommandSchedule

  class Executor {
    var queues: map<S.Key, seq<S.Dispatch>>
    var readyKeys: seq<S.Key>
    var scheduled: set<S.Key>
    var accepted: set<string>
    var closed: bool
    ghost var state: S.State

    ghost predicate Valid()
      reads this
    {
      && S.Inv(state)
      && queues == state.queues && readyKeys == state.ready && scheduled == state.scheduled
      && accepted == state.accepted && closed == state.closed
    }

    constructor (workerCount: int)
      ensures Valid() && state == S.Init(workerCount)
    {
      queues, readyKeys, scheduled, accepted, closed := map[], [], {}, {}, false;
      state := S.Init(workerCount);
      S.InitInv(workerCount);
    }

    /** Accepts a command without waiting for a worker. */
    method Submit(dispatch: S.Dispatch, ghost wake: Option<nat>) returns (error: Option<S.SubmitError>)
      requires Valid() && S.WakeOk(state.workers, wake)
      modifies this
      ensures Valid() && state == S.Step(old(state), S.SubmitEvent(dispatch, wake))
      ensures error == S.SubmitCheck(old(state), dispatch)
      ensures error.None? <==>
                && dispatch.cmdId != "" && dispatch.command.kind != "" && !old(closed)
                && dispatch.cmdId !in old(accepted)
      ensures error.None? ==>
                accepted == old(accepted) + {dispatch.cmdId} && state.submitted == old(state).submitted + [dispatch]
    {
      S.SubmitKeepsInv(state, dispatch, wake);
      if dispatch.cmdId == "" {
        return Some(S.InvalidCommandId);
      }
      if dispatch.command.kind == "" {
        return Some(S.InvalidCommandType);
      }
      if closed {
        return Some(S.Closed);
      }
      if dispatch.cmdId in accepted {
        return Some(S.DuplicateCommand);
      }
      accepted := accepted + {dispatch.cmdId};
      var key := S.KeyOf(dispatch);
      queues := queues[key := (if key in queues then queues[key] else []) + [dispatch]];
      if key !in scheduled {
        scheduled := scheduled + {key};
        readyKeys := readyKeys + [key];
      }
      assert key in state.scheduled ==> state.scheduled + {key} == state.scheduled;
      state := S.Submit(state, dispatch, wake);
      return None;
    }

    /**
     One look for work: the worker gets the first ready key and the command at the head of its queue,
     or goes to sleep, or leaves for good.
     */
    method Next(ghost w: nat) returns (taken: Option<(S.Key, S.Dispatch)>, leaves: bool)
      requires Valid() && S.Enabled(state, S.NextEvent(w))
      modifies this
      ensures Valid() && state == S.Step(old(state), S.NextEvent(w))
      ensures w < |state.workers|
      ensures taken.Some? ==> state.workers[w] == S.Executing(taken.value.0, taken.value.1) && !leaves
      ensures taken.None? ==> state.workers[w] == if leaves then S.Exited else S.Waiting
    {
      S.NextKeepsInv(state, w);
      if |readyKeys| == 0 {
        taken, leaves := None, closed;
      } else {
        var key := readyKeys[0];
        assert S.KeyOk(state, key);
        S.CountAt(readyKeys, 0);
        readyKeys := readyKeys[1..];
        taken, leaves := Some((key, queues[key][0])), false;
      }
      state := S.Next(state, w);
    }

    /** Runs the handler, whatever becomes of it, and hands out the result. */
    method Report(ghost w: nat, dispatch: S.Dispatch, outcome: S.Outcome) returns (result: S.CommandResult)
      requires Valid() && S.Enabled(state, S.ReportEvent(w, outcome)) && state.workers[w].dispatch == dispatch
      modifies this`state
      ensures Valid() && state == S.Step(old(state), S.ReportEvent(w, outcome))
      ensures state.results == old(state).results + [result]
      ensures result.cmdId == dispatch.cmdId && result.sessionId == dispatch.sessionId
      ensures (result.ok <==> outcome.Returned?) && result.payload == if result.ok then outcome.payload else ""
    {
      S.ReportKeepsInv(state, w, outcome);
      result := S.Execute(dispatch, outcome);
      state := S.Report(state, w, outcome);
    }

    /** Gives the queue of a finished command back. */
    method Complete(ghost w: nat, key: S.Key, ghost wake: Option<nat>)
      requires Valid() && S.Enabled(state, S.CompleteEvent(w, wake)) && state.workers[w].key == key
      modifies this
      ensures Valid() && state == S.Step(old(state), S.CompleteEvent(w, wake))
    {
      S.CompleteKeepsInv(state, w, wake);
      assert S.WorkerOk(state, w);
      var queue := queues[key][1..];
      if |queue| == 0 {
        queues := queues - {key};
        scheduled := scheduled - {key};
      } else {
        queues := queues[key := queue];
        readyKeys := readyKeys + [key];
      }
      state := S.Complete(state, w, wake);
    }

    /** Stops accepting work and wakes everybody; the workers then finish what was accepted. */
    method Close()
      requires Valid()
      modifies this
      ensures Valid() && state == S.Step(old(state), S.CloseEvent)
    {
      S.CloseKeepsInv(state);
      closed := true;
      state := S.Close(state);
    }
  }
}
