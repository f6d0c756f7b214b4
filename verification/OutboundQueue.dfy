/**
 The outbound queue object and the two files it keeps. Each method is proved to do to the queue and
 its files what the function of the same name in OutboundLog.dfy does to their values.
 */
module OutboundQueue {
  import opened Options
  import L = OutboundLog

  /** The queue's log and the file with the acknowledged number. Writes may fail without effect. */
  class Disk {
    const sound: bool                  // no write fails
    var log: seq<L.Message>
    var saved: int

    method Append(m: L.Message) returns (ok: bool)
      modifies this`log
      ensures log == if ok then old(log) + [m] else old(log)
      ensures sound ==> ok
    {
      ok := *;
      ok := ok || sound;
      if ok {
        log := log + [m];
      }
    }

    /** Replaces the log in one step; the new log may then fail to open. */
    method Replace(messages: seq<L.Message>) returns (r: L.Rewrite)
      modifies this`log
      ensures log == if r.Untouched? then old(log) else messages
      ensures sound ==> r == L.Rewritten(true)
    {
      var renamed: bool, reopened: bool := *, *;
      if renamed || sound {
        log := messages;
        r := L.Rewritten(reopened || sound);
      } else {
        r := L.Untouched;
      }
    }

    method SaveAckedSeq(n: int) returns (ok: bool)
      modifies this`saved
      ensures saved == if ok then n else old(saved)
      ensures sound ==> ok
    {
      ok := *;
      ok := ok || sound;
      if ok {
        saved := n;
      }
    }
  }

  class Queue {
    const disk: Disk
    const maxSize: nat
    var messages: seq<L.Message>
    ghost var counter: int
    ghost var floor: int
    ghost var unwritten: set<int>

    ghost function Model(running: bool): L.State
      reads this, disk
    {
      L.State(running, maxSize, messages, disk.log, disk.saved, counter, floor, unwritten)
    }

    /** Loads whatever the log holds. */
    constructor (disk: Disk, maxSize: nat)
      ensures this.disk == disk && this.maxSize == maxSize
      ensures Model(false) == L.Load(L.Stopped(maxSize, disk.log, disk.saved))
    {
      this.disk, this.maxSize := disk, maxSize;
      messages, counter, floor, unwritten := disk.log, 0, disk.saved, {};
    }

    method Compact() returns (r: L.Rewrite)
      modifies this`unwritten, disk`log
      ensures forall running :: Model(running) == L.Compact(old(Model(running)), r)
      ensures disk.sound ==> r == L.Rewritten(true)
    {
      r := disk.Replace(messages);
      if r.Rewritten? {
        unwritten := {};
      }
    }

    /** Queues a message and writes it to the log; the oldest message makes room for it if need be. */
    method Push(m: L.Message) returns (ok: bool, ghost appended: bool, ghost rewrite: L.Rewrite)
      requires maxSize >= 1
      modifies this, disk`log
      ensures (Model(true), ok) == L.Push(old(Model(true)), m, appended, rewrite)
      ensures disk.sound ==> ok && appended
      ensures messages != [] && messages[|messages| - 1] == m
    {
      rewrite := L.Untouched;
      var needsCompact := false;
      if |messages| >= maxSize {
        floor := messages[0].seqNo;
        messages := messages[1..];
        needsCompact := true;
      }
      messages := messages + [m];
      counter := m.seqNo;
      var written := disk.Append(m);
      appended := written;
      if !written {
        unwritten := unwritten + {m.seqNo};
        return false, appended, rewrite;
      }
      if needsCompact {
        var r := Compact();
        return r == L.Rewritten(true), appended, r;
      }
      return true, appended, rewrite;
    }

    /** Drops everything up to `a` from memory. */
    method PruneMessages(a: int) returns (removed: nat)
      modifies this`messages, this`floor
      ensures messages == L.Above(old(messages), a) && floor == L.Max(old(floor), a)
      ensures removed == |old(messages)| - |messages|
    {
      removed := 0;
      var kept := [];
      var i := 0;
      assert messages[..0] == [];
      while i < |messages|
        invariant i <= |messages|
        invariant messages == old(messages) && floor == old(floor)
        invariant kept == L.Above(messages[..i], a) && removed == i - |kept|
      {
        assert messages[..i + 1] == messages[..i] + [messages[i]];
        L.AboveAppend(messages[..i], messages[i], a);
        if messages[i].seqNo > a {
          kept := kept + [messages[i]];
        } else {
          removed := removed + 1;
        }
        i := i + 1;
      }
      assert messages[..i] == messages;
      messages := kept;
      floor := L.Max(floor, a);
    }

    /** `recent`: the last rewrite was less than 30 seconds ago. `small`: the log is known to be under 5 MiB. */
    method MaybeCompact(removed: nat, recent: bool, small: bool) returns (rewrite: Option<L.Rewrite>)
      modifies this`unwritten, disk`log
      ensures rewrite.Some? <==> L.Compacts(removed, recent, small)
      ensures forall running :: Model(running) ==
                if rewrite.Some? then L.Compact(old(Model(running)), rewrite.value) else old(Model(running))
      ensures disk.sound ==> rewrite.None? || rewrite.value == L.Rewritten(true)
    {
      if removed == 0 {
        return None;
      }
      if recent && removed < 100 {
        return None;
      }
      if small && removed < 100 {
        return None;
      }
      var r := Compact();
      return Some(r);
    }

    /** Forgets what the server has; the log may still hold it for a while. */
    method AckUpto(a: int, recent: bool, small: bool) returns (ok: bool, ghost rewrite: L.Rewrite)
      modifies this, disk`log
      ensures forall running :: Model(running) == L.Prune(old(Model(running)), a, recent, small, rewrite)
      ensures ok <==> !L.Compacts(|old(messages)| - |messages|, recent, small) || !L.Failed(rewrite)
      ensures messages == L.Above(old(messages), a)
      ensures disk.sound ==> ok
    {
      var removed := PruneMessages(a);
      var r := MaybeCompact(removed, recent, small);
      rewrite := if r.Some? then r.value else L.Untouched;
      ok := r.None? || r.value == L.Rewritten(true);
    }

    /** Zero when the queue is empty. */
    method MaxSeq() returns (m: int)
      ensures m == L.MaxSeq(messages)
      ensures L.AllUpto(messages, m) && (m == 0 || exists i: nat :: i < |messages| && messages[i].seqNo == m)
    {
      m := 0;
      var i := 0;
      while i < |messages|
        invariant i <= |messages| && m == L.MaxSeq(messages[..i])
        invariant m == 0 || exists j: nat :: j < i && messages[j].seqNo == m
      {
        assert messages[..i + 1] == messages[..i] + [messages[i]];
        L.MaxSeqAppend(messages[..i], messages[i]);
        if messages[i].seqNo > m {
          m := messages[i].seqNo;
        }
        i := i + 1;
      }
      assert messages[..i] == messages;
      L.MaxSeqIsGreatest(messages);
    }

    /** The least and the greatest number in the queue. */
    method SeqRange() returns (least: int, greatest: int)
      requires messages != []
      ensures least == L.MinSeq(messages) && IsGreatest(messages, greatest)
    {
      least, greatest := messages[0].seqNo, messages[0].seqNo;
      var i := 1;
      assert messages[..1] == [messages[0]];
      while i < |messages|
        invariant 0 < i <= |messages|
        invariant least == L.MinSeq(messages[..i]) && IsGreatest(messages[..i], greatest)
      {
        assert messages[..i + 1] == messages[..i] + [messages[i]];
        L.MinSeqAppend(messages[..i], messages[i]);
        GreatestAppend(messages[..i], greatest, messages[i]);
        if messages[i].seqNo < least {
          least := messages[i].seqNo;
        }
        if messages[i].seqNo > greatest {
          greatest := messages[i].seqNo;
        }
        i := i + 1;
      }
      assert messages[..i] == messages;
    }

    /** Adds `offset` to every number, one message at a time. */
    method ShiftAll(offset: int)
      modifies this`messages
      ensures messages == L.Shift(old(messages), offset)
    {
      ghost var before := messages;
      var i := 0;
      while i < |messages|
        invariant |messages| == |before| && i <= |before|
        invariant forall j: nat :: j < i ==> messages[j] == before[j].(seqNo := before[j].seqNo + offset)
        invariant forall j: nat :: i <= j < |before| ==> messages[j] == before[j]
      {
        messages := messages[i := messages[i].(seqNo := messages[i].seqNo + offset)];
        i := i + 1;
      }
      L.ShiftAt(before, offset);
    }

    method MoveUp(offset: int) returns (ok: bool, ghost rewrite: L.Rewrite)
      modifies this`messages, this`unwritten, disk`log
      ensures Model(false) == L.Compact(old(Model(false)).(messages := L.Shift(old(messages), offset)), rewrite)
      ensures messages == L.Shift(old(messages), offset) && (ok <==> !L.Failed(rewrite))
      ensures disk.sound ==> ok
    {
      ShiftAll(offset);
      var r := Compact();
      return r == L.Rewritten(true), r;
    }

    /**
     Moves all messages above `reserved` if one of them is not, and writes them out. Returns the greatest
     number that is now in use.
     */
    method RebaseAbove(reserved: int) returns (ok: bool, greatest: int, ghost rewrite: L.Rewrite)
      modifies this`messages, this`unwritten, disk`log
      ensures Model(false) == L.Rebase(old(Model(false)), reserved, rewrite)
      ensures ok <==> L.Rebased(old(messages), reserved) == old(messages) || !L.Failed(rewrite)
      ensures ok ==> if messages == [] then greatest == reserved else IsGreatest(messages, greatest)
      ensures !ok ==> greatest == 0
      ensures disk.sound ==> ok
    {
      rewrite := L.Untouched;
      if |messages| == 0 {
        return true, reserved, rewrite;
      }
      var least, last := SeqRange();
      if least > reserved {
        return true, last, rewrite;
      }
      var offset := reserved + 1 - least;
      L.RebasedKeeps(messages, reserved);
      L.MinSeqIsLeast(messages);
      GreatestShifts(messages, last, offset);
      ok, rewrite := MoveUp(offset);
      greatest := if ok then last + offset else 0;
    }
  }

  /** `n` is the greatest number of a message. */
  ghost predicate IsGreatest(ms: seq<L.Message>, n: int) {
    L.AllUpto(ms, n) && exists i: nat :: i < |ms| && ms[i].seqNo == n
  }

  lemma GreatestAppend(ms: seq<L.Message>, n: int, m: L.Message)
    requires IsGreatest(ms, n)
    ensures IsGreatest(ms + [m], if m.seqNo > n then m.seqNo else n)
  {
    var i: nat :| i < |ms| && ms[i].seqNo == n;
    assert (ms + [m])[i] == ms[i] && (ms + [m])[|ms|] == m;
  }

  lemma GreatestShifts(ms: seq<L.Message>, n: int, offset: int)
    requires IsGreatest(ms, n)
    ensures IsGreatest(L.Shift(ms, offset), n + offset)
  {
    L.ShiftAt(ms, offset);
    var i: nat :| i < |ms| && ms[i].seqNo == n;
    assert L.Shift(ms, offset)[i].seqNo == n + offset;
  }
}
