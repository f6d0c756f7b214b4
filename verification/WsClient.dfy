/**
 The WebSocket client's own fields: sequence counter, acknowledged number, connection, ready flag and
 queue. Each method takes the step of Delivery.dfy that `model` records; the methods that hold the send
 mutex are not interrupted here, while the steps there leave room for acknowledgements in between.
 */
module WsClient {
  import opened Options
  import L = OutboundLog
  import D = Delivery
  import Q = OutboundQueue

  /** A connection. Once a write has failed no other succeeds. */
  class Conn {
    const sound: bool                  // no write fails
    var wire: seq<L.Message>
    var broken: bool

    constructor (sound: bool)
      ensures wire == [] && !broken && this.sound == sound
    {
      this.sound, wire, broken := sound, [], false;
    }

    method Write(m: L.Message) returns (ok: bool)
      modifies this
      ensures wire == if ok then old(wire) + [m] else old(wire)
      ensures ok ==> !old(broken)
      ensures broken == !ok
      ensures sound && !old(broken) ==> ok
    {
      ok := *;
      ok := ok || sound;
      if broken {
        ok := false;
      }
      if ok {
        wire := wire + [m];
      } else {
        broken := true;
      }
    }
  }

  class Client {
    const queue: Q.Queue
    var seqNo: int
    var lastAckedSeq: int
    var conn: Conn?
    var ready: bool
    ghost var model: D.Client

    /** What the connection shows of its link in the model. */
    ghost predicate LinkIs(conn: Conn, link: D.Link)
      reads conn
    {
      && conn.wire == link.wire && (link.phase.Fresh? ==> conn.wire == [])
      && conn.broken == (link.phase.Aborted? || link.phase == D.Ready(false))
    }

    /** The fields agree with the model. */
    ghost predicate Mirrors()
      reads this, queue, conn
    {
      && seqNo == model.counter && lastAckedSeq == model.lastAcked
      && queue.messages == model.queue && queue.maxSize == model.maxSize && queue.maxSize >= 1
      && (conn == null <==> model.link.None?)
      && (conn != null ==> LinkIs(conn, model.link.value))
      && ready == D.IsReady(model)
    }

    ghost predicate Valid()
      reads this, queue, conn
    {
      D.QueueOk(model) && Mirrors()
    }

    constructor (queue: Q.Queue)
      ensures this.queue == queue && seqNo == 1 && lastAckedSeq == 0 && conn == null && !ready
    {
      this.queue := queue;
      seqNo, lastAckedSeq, conn, ready := 1, 0, null, false;
      model := D.Client(1, 0, 0, [], None, [], {}, {}, 0);
    }

    /** The counter never goes back. */
    method AdvanceSeq(n: int)
      modifies this`seqNo
      ensures seqNo == L.Max(old(seqNo), L.Max(n, 1))
    {
      var least := if n < 1 then 1 else n;
      if seqNo < least {
        seqNo := least;
      }
    }

    /** The numbers of a queue that was just loaded count as used. */
    method ReserveQueue()
      modifies this`seqNo
      ensures seqNo == L.Max(old(seqNo), L.Max(L.MaxSeq(queue.messages), 1))
    {
      var greatest := queue.MaxSeq();
      AdvanceSeq(greatest);
    }

    method SetLastAckedSeq(n: int)
      modifies this`seqNo, this`lastAckedSeq
      ensures lastAckedSeq == n
      ensures seqNo == L.Max(L.Max(old(seqNo), L.Max(n, 1)), L.Max(L.MaxSeq(queue.messages), 1))
    {
      lastAckedSeq := n;
      AdvanceSeq(n);
      ReserveQueue();
    }

    /** Queues a message, the oldest making room for it. */
    method Persist(m: L.Message) returns (ok: bool)
      requires queue.maxSize >= 1
      modifies queue, queue.disk`log
      ensures queue.messages ==
              (if |old(queue.messages)| >= queue.maxSize then old(queue.messages)[1..] else old(queue.messages)) + [m]
      ensures ok ==> queue.disk.log != [] && queue.disk.log[|queue.disk.log| - 1] == m
      ensures queue.disk.sound ==> ok
    {
      ghost var appended, rewrite;
      ok, appended, rewrite := queue.Push(m);
      L.PushedMemory(old(queue.Model(true)), m, appended, rewrite);
    }

    /** Sends a message now if the connection is ready; a durable one is queued in any case. */
    method Send(kind: string, payload: string)
      returns (result: D.SendResult, ghost persisted: bool, ghost written: bool)
      requires Valid() && D.Enabled(model, D.SendEvent(kind, payload, true, true))
      modifies this`seqNo, this`model, queue, queue.disk`log, conn
      ensures Valid()
      ensures (model, result) ==
              D.Send(old(model), L.Message(old(seqNo) + 1, kind, payload), !D.IsVolatile(kind), persisted, written)
      ensures conn == old(conn) && (queue.disk.sound ==> result != D.PersistFailed)
      ensures conn != null && conn.sound && !old(conn.broken) ==> result != D.WriteFailed
      ensures !D.IsVolatile(kind) ==>
                && result != D.NotConnected && queue.messages != []
                && queue.messages[|queue.messages| - 1] == L.Message(old(seqNo) + 1, kind, payload)
      ensures D.IsVolatile(kind) ==> result != D.PersistFailed && queue.messages == old(queue.messages)
      ensures conn == null || !ready ==> result == if D.IsVolatile(kind) then D.NotConnected
                                                   else if persisted then D.Sent else D.PersistFailed
      ensures conn != null && ready ==>
                conn.wire == if result == D.Sent then old(conn.wire) + [L.Message(old(seqNo) + 1, kind, payload)]
                             else old(conn.wire)
    {
      persisted, written := false, false;
      seqNo := seqNo + 1;
      var m := L.Message(seqNo, kind, payload);
      var durable := !D.IsVolatile(kind);
      if durable {
        var ok := Persist(m);
        persisted := ok;
        if !ok {
          RecordSend(m, durable, persisted, written);
          return D.PersistFailed, persisted, written;
        }
      }
      result, written := WriteLive(m, durable, persisted);
    }

    /** The part of a send that comes after queueing. */
    method WriteLive(m: L.Message, durable: bool, ghost persisted: bool)
      returns (result: D.SendResult, ghost written: bool)
      requires D.QueueOk(model) && m.seqNo == model.counter + 1
      requires !(model.link.Some? && model.link.value.phase.Replaying?)
      requires (conn == null <==> model.link.None?) && (conn != null ==> LinkIs(conn, model.link.value))
      requires ready == D.IsReady(model)
      requires durable ==> persisted
      modifies this`model, conn
      ensures D.QueueOk(model) && (model, result) == D.Send(old(model), m, durable, persisted, written)
      ensures (conn == null <==> model.link.None?) && (conn != null ==> LinkIs(conn, model.link.value))
      ensures ready == D.IsReady(model) && conn == old(conn)
      ensures conn != null && conn.sound && !old(conn.broken) ==> result != D.WriteFailed
      ensures result != D.PersistFailed
      ensures conn == null || !ready ==> result == if durable then D.Sent else D.NotConnected
      ensures conn != null && ready ==>
                && result in {D.Sent, D.WriteFailed}
                && conn.wire == if result == D.Sent then old(conn.wire) + [m] else old(conn.wire)
    {
      written := false;
      if conn == null || !ready {
        RecordSend(m, durable, persisted, written);
        return if durable then D.Sent else D.NotConnected, written;
      }
      var sent := conn.Write(m);
      written := sent;
      RecordSend(m, durable, persisted, written);
      return if sent then D.Sent else D.WriteFailed, written;
    }

    ghost method RecordSend(m: L.Message, durable: bool, persisted: bool, written: bool)
      requires D.QueueOk(model) && m.seqNo == model.counter + 1
      requires !(model.link.Some? && model.link.value.phase.Replaying?)
      modifies this`model
      ensures D.QueueOk(model) && model == D.Send(old(model), m, durable, persisted, written).0
    {
      D.SendKeepsQueue(model, m, durable, persisted, written);
      model := D.Send(model, m, durable, persisted, written).0;
    }

    ghost method Record(e: D.Event)
      requires D.QueueOk(model)
      modifies this`model
      ensures D.QueueOk(model) && model == D.Step(old(model), e)
    {
      D.StepKeepsQueue(model, e);
      model := D.Step(model, e);
    }

    /** A new connection starts out silent. */
    method Connect(sound: bool)
      requires Valid() && conn == null
      modifies this
      ensures Valid() && model == D.Step(old(model), D.ConnectEvent) && fresh(conn) && conn.sound == sound
    {
      conn := new Conn(sound);
      ready := false;
      Record(D.ConnectEvent);
    }

    /** The reader gives a dead connection up. */
    method Disconnect()
      requires Valid() && conn != null
      modifies this
      ensures Valid() && model == D.Step(old(model), D.DisconnectEvent)
    {
      conn := null;
      ready := false;
      Record(D.DisconnectEvent);
    }

    /** The first frame of a connection; its number is one that no queued message has. */
    method SendHello(payload: string) returns (ok: bool)
      requires Valid() && conn != null && model.link.value.phase.Fresh?
      modifies this`model, conn
      ensures Valid() && model == D.Step(old(model), D.HelloEvent(payload, ok))
      ensures forall m :: m in queue.messages ==> m.seqNo > L.Max(lastAckedSeq, 1)
      ensures ok ==> conn.wire == [L.Message(L.Max(lastAckedSeq, 1), "agent.hello", payload)]
      ensures conn == old(conn) && (conn.sound && !old(conn.broken) ==> ok)
    {
      var number := if lastAckedSeq < 1 then 1 else lastAckedSeq;
      ok := conn.Write(L.Message(number, "agent.hello", payload));
      Record(D.HelloEvent(payload, ok));
      forall m | m in queue.messages ensures m.seqNo > L.Max(lastAckedSeq, 1) {
        assert m in model.queue;
      }
    }

    /** The server acknowledges `a`. */
    method HandleAck(a: int, recent: bool, small: bool) returns (ghost rewrite: L.Rewrite, ghost noted: bool)
      requires Valid() && conn != null && a <= model.mark && a <= seqNo
      modifies this`lastAckedSeq, this`model, queue, queue.disk
      ensures Valid() && model == D.Step(old(model), D.Event.AckEvent(a))
      ensures lastAckedSeq == L.Max(old(lastAckedSeq), a)
      ensures queue.Model(true) == if a > 0 then L.Ack(old(queue.Model(true)), a, recent, small, rewrite, noted)
                                   else old(queue.Model(true))
      ensures a > 0 && queue.disk.sound ==> noted && queue.disk.saved == a
    {
      rewrite, noted := L.Untouched, false;
      if a > lastAckedSeq {
        lastAckedSeq := a;
      }
      if a > 0 {
        var _, pruning := queue.AckUpto(a, recent, small);
        assert queue.Model(true) == L.Prune(old(queue.Model(true)), a, recent, small, pruning);
        var ok := queue.disk.SaveAckedSeq(a);
        rewrite, noted := pruning, ok;
      }
      Record(D.Event.AckEvent(a));
    }

    /** Writes the next message of the replay. */
    method ReplayMessage(m: L.Message, ghost rest: seq<L.Message>) returns (ok: bool)
      requires Valid() && conn != null && !ready && model.link.value.phase == D.Replaying([m] + rest)
      modifies this`model, conn
      ensures Valid() && model == D.Step(old(model), D.ReplayOneEvent(ok))
      ensures conn.wire == if ok then old(conn.wire) + [m] else old(conn.wire)
      ensures model.link.Some? && model.link.value.phase == if ok then D.Replaying(rest) else D.Aborted
      ensures conn == old(conn) && (conn.sound && !old(conn.broken) ==> ok)
    {
      ok := conn.Write(m);
      assert ([m] + rest)[1..] == rest;
      Record(D.ReplayOneEvent(ok));
    }

    ghost method StartReplay()
      requires Valid() && conn != null && model.link.value.phase.Greeted?
      modifies this`model
      ensures Valid() && model == D.Step(old(model), D.BeginReplayEvent)
      ensures model.link.Some? && model.link.value.phase == D.Replaying(D.SortBySeq(queue.messages))
    {
      Record(D.BeginReplayEvent);
    }

    method FinishReplay()
      requires Valid() && conn != null && model.link.value.phase == D.Replaying([])
      modifies this`ready, this`model
      ensures Valid() && ready && model == D.Step(old(model), D.EndReplayEvent)
      ensures model.link.Some? && model.link.value.phase == D.Ready(true)
    {
      Record(D.EndReplayEvent);
      ready := conn != null;
    }

    /** Writes the messages of the replay one after the other. */
    method ReplayAll(unacked: seq<L.Message>) returns (ok: bool, ghost trace: seq<D.Event>)
      requires Valid() && conn != null && !ready && model.link.value.phase == D.Replaying(unacked)
      modifies this`model, conn
      ensures Valid() && model == D.Run(old(model), trace) && model.link.Some?
      ensures ok ==> model.link.value.phase == D.Replaying([]) && conn.wire == old(conn.wire) + unacked
      ensures !ok ==> model.link.value.phase.Aborted?
      ensures conn == old(conn) && (conn.sound && !old(conn.broken) ==> ok)
    {
      trace := [];
      var i := 0;
      ok := true;
      while i < |unacked|
        invariant i <= |unacked| && Valid() && model.link.Some?
        invariant model.link.value.phase == D.Replaying(unacked[i..])
        invariant conn.wire == old(conn.wire) + unacked[..i]
        invariant model == D.Run(old(model), trace) && conn == old(conn)
        invariant conn.sound && !old(conn.broken) ==> !conn.broken
      {
        assert unacked[i..] == [unacked[i]] + unacked[i + 1..];
        ok := ReplayMessage(unacked[i], unacked[i + 1..]);
        D.RunOneMore(old(model), trace, D.ReplayOneEvent(ok));
        trace := trace + [D.ReplayOneEvent(ok)];
        if !ok {
          return;
        }
        i := i + 1;
      }
      ok := true;
      assert unacked[..i] == unacked;
    }

    /**
     Replays the queue in the order of its numbers and only then lets live messages through. A failed
     write leaves the connection unready, and without a connection only an empty queue is replayed.
     */
    method ResendQueued() returns (ok: bool, ghost trace: seq<D.Event>)
      requires Valid() && (conn != null ==> model.link.value.phase.Greeted?)
      modifies this`ready, this`model, conn
      ensures Valid() && model == D.Run(old(model), trace)
      ensures ready == (ok && conn != null)
      ensures conn == null ==> model == old(model) && (ok <==> queue.messages == [])
      ensures conn != null && ok ==>
                && model.link.value.phase == D.Ready(true)
                && conn.wire == old(conn.wire) + D.SortBySeq(queue.messages)
      ensures conn != null && !ok ==> model.link.value.phase.Aborted?
      ensures conn == old(conn) && (conn != null && conn.sound && !old(conn.broken) ==> ok)
    {
      if conn == null {
        return queue.messages == [], [];
      }
      var unacked := D.SortBySeq(queue.messages);
      StartReplay();
      D.RunOneMore(old(model), [], D.BeginReplayEvent);
      ok, trace := ReplayAll(unacked);
      D.RunConcat(old(model), [D.BeginReplayEvent], trace);
      trace := [D.BeginReplayEvent] + trace;
      if !ok {
        return;
      }
      D.RunOneMore(old(model), trace, D.EndReplayEvent);
      trace := trace + [D.EndReplayEvent];
      FinishReplay();
    }
  }

  /** Drops what was acknowledged and reserves the greeting's number. */
  method PrepareQueue(queue: Q.Queue, lastAcked: int, recent: bool, small: bool, ghost before: L.State)
    returns (ok: bool, ghost answers: L.StartAnswers)
    requires queue.Model(false) == L.Load(before) && before.saved == lastAcked
    modifies queue, queue.disk`log
    ensures queue.Model(false) == L.Prepare(before, answers)
    ensures ok <==> !L.PruneFails(before, answers) && !L.RebaseFails(before, answers)
    ensures queue.disk.sound ==> ok
  {
    ghost var pruning, rebasing := L.Untouched, L.Untouched;
    ok, pruning := queue.AckUpto(lastAcked, recent, small);
    answers := L.StartAnswers(recent, small, pruning, L.Untouched);
    assert L.PruneFails(before, answers) == !ok;
    if !ok {
      return;
    }
    var greatest;
    ok, greatest, rebasing := queue.RebaseAbove(if lastAcked < 1 then 1 else lastAcked);
    answers := L.StartAnswers(recent, small, pruning, rebasing);
  }

  /** A process does not start only if some message had to be removed or renumbered on disk and that failed. */
  lemma BlockedStart(before: L.State, answers: L.StartAnswers)
    requires !before.running && !L.Start(before, answers).running
    ensures !L.AllAbove(before.log, L.Max(before.saved, 1))
    ensures answers.pruned != L.Rewritten(true) || answers.rebased != L.Rewritten(true)
  {
    if L.AllAbove(before.log, L.Max(before.saved, 1)) {
      L.CleanDiskStarts(before, answers);
    }
    L.StartFailsIff(before, answers);
  }

  /**
   Starts a process on what is on disk: loads the queue, drops what was acknowledged, reserves the
   greeting's number, and puts the counter above all others. There is no client if a write fails. The
   server and the frames on their way to it are as the last process, `past`, left them.
   */
  method StartClient(disk: Q.Disk, maxSize: nat, recent: bool, small: bool, ghost past: D.Client)
    returns (client: Client?, ghost answers: L.StartAnswers)
    requires maxSize >= 1
    modifies disk`log
    ensures disk.sound || L.AllAbove(old(disk.log), L.Max(old(disk.saved), 1)) ==> client != null
    ensures client == null ==>
              && !L.AllAbove(old(disk.log), L.Max(old(disk.saved), 1))
              && (answers.pruned != L.Rewritten(true) || answers.rebased != L.Rewritten(true))
    ensures
      var started := L.Start(L.Stopped(maxSize, old(disk.log), old(disk.saved)), answers);
      && disk.log == started.log
      && (client == null <==> !started.running)
      && (client != null ==>
            && fresh(client) && client.model == D.Restarted(past, started) && client.Mirrors()
            && (L.Sorted(old(disk.log)) ==> client.Valid()))
  {
    ghost var before := L.Stopped(maxSize, disk.log, disk.saved);
    var queue := new Q.Queue(disk, maxSize);
    client := new Client(queue);
    client.ReserveQueue();
    var lastAcked := disk.saved;
    var ok;
    ok, answers := PrepareQueue(queue, lastAcked, recent, small, before);
    if !ok {
      BlockedStart(before, answers);
      return null, answers;
    }
    client.SetLastAckedSeq(lastAcked);
    client.model := D.Restarted(past, L.Start(before, answers));
    if L.Sorted(before.log) {
      D.StartedQueueOk(past, before, answers);
    }
  }
}
