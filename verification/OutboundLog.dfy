/**
 The durable outbound queue: messages in memory, an append-only log that is rewritten now and then,
 and the acknowledged sequence number in a file of its own.

 Any write may fail; one that fails changes nothing. The process may stop at any point between two
 operations and start again from what is on disk. Sequence numbers are pushed in increasing order
 and the server acknowledges only numbers that were handed out.
 */
module OutboundLog {
  import opened Options

  datatype Message = Message(seqNo: int, kind: string, payload: string)

  /** What became of a rewrite of the log. The rewrite counts as failed if the log cannot be reopened. */
  datatype Rewrite = Untouched | Rewritten(reopened: bool)

  /**
   `floor` and `unwritten` are history: everything up to `floor` has left the queue, and `unwritten` holds the
   numbers of queued messages whose append failed.
   */
  datatype State = State(
    running: bool,
    maxSize: nat,
    messages: seq<Message>,
    log: seq<Message>,
    saved: int,
    counter: int,
    floor: int,
    unwritten: set<int>)

  function Max(a: int, b: int): int {
    if a < b then b else a
  }

  // ---------------------------------------------------------------------------------------------
  // Sequences of messages
  // ---------------------------------------------------------------------------------------------

  ghost predicate Sorted(ms: seq<Message>) {
    forall i: nat, j: nat :: i < j < |ms| ==> ms[i].seqNo < ms[j].seqNo
  }

  ghost predicate AllAbove(ms: seq<Message>, a: int) {
    forall i: nat :: i < |ms| ==> ms[i].seqNo > a
  }

  ghost predicate AllUpto(ms: seq<Message>, a: int) {
    forall i: nat :: i < |ms| ==> ms[i].seqNo <= a
  }

  /** No message has a number in (a, b]. */
  ghost predicate NoneWithin(ms: seq<Message>, a: int, b: int) {
    forall i: nat :: i < |ms| ==> !(a < ms[i].seqNo <= b)
  }

  /** The messages that an acknowledgement of `a` leaves. */
  function Above(ms: seq<Message>, a: int): seq<Message> {
    if ms == [] then []
    else if ms[0].seqNo > a then [ms[0]] + Above(ms[1..], a)
    else Above(ms[1..], a)
  }

  /** The messages whose append did not fail. */
  function Without(ms: seq<Message>, unwritten: set<int>): seq<Message> {
    if ms == [] then []
    else if ms[0].seqNo !in unwritten then [ms[0]] + Without(ms[1..], unwritten)
    else Without(ms[1..], unwritten)
  }

  lemma {:induction false} AboveAppend(ms: seq<Message>, m: Message, a: int)
    ensures Above(ms + [m], a) == if m.seqNo > a then Above(ms, a) + [m] else Above(ms, a)
  {
    if ms == [] {
      assert ms + [m] == [m] && [m][1..] == [];
    } else {
      assert (ms + [m])[1..] == ms[1..] + [m];
      AboveAppend(ms[1..], m, a);
    }
  }

  lemma {:induction false} AboveTwice(ms: seq<Message>, a: int, b: int)
    ensures Above(Above(ms, a), b) == Above(ms, Max(a, b))
  {
    if ms != [] {
      AboveTwice(ms[1..], a, b);
      if ms[0].seqNo > a {
        assert Above(ms, a)[1..] == Above(ms[1..], a);
      }
    }
  }

  lemma {:induction false} AboveAll(ms: seq<Message>, a: int)
    ensures AllAbove(ms, a) <==> Above(ms, a) == ms
    ensures |Above(ms, a)| <= |ms|
  {
    if ms != [] {
      AboveAll(ms[1..], a);
      assert AllAbove(ms, a) ==> AllAbove(ms[1..], a);
      if ms[0].seqNo > a {
        assert Above(ms, a)[1..] == Above(ms[1..], a);
        if AllAbove(ms[1..], a) {
          forall i: nat | i < |ms| ensures ms[i].seqNo > a {
            assert i > 0 ==> ms[i] == ms[1..][i - 1];
          }
        }
      }
    }
  }

  lemma {:induction false} AboveIsAbove(ms: seq<Message>, a: int)
    ensures AllAbove(Above(ms, a), a)
  {
    if ms != [] {
      AboveIsAbove(ms[1..], a);
    }
  }

  lemma {:induction false} AboveKeepsBounds(ms: seq<Message>, a: int, b: int)
    requires AllUpto(ms, b)
    ensures AllUpto(Above(ms, a), b)
  {
    if ms != [] {
      assert AllUpto(ms[1..], b);
      AboveKeepsBounds(ms[1..], a, b);
    }
  }

  lemma {:induction false} AboveKeepsFloor(ms: seq<Message>, a: int, b: int)
    requires AllAbove(ms, b)
    ensures AllAbove(Above(ms, a), b)
  {
    if ms != [] {
      assert AllAbove(ms[1..], b);
      AboveKeepsFloor(ms[1..], a, b);
    }
  }

  /** The messages that remain of a sorted queue are its tail. */
  lemma {:induction false} AboveIsSuffix(ms: seq<Message>, a: int) returns (i: nat)
    requires Sorted(ms)
    ensures i <= |ms| && Above(ms, a) == ms[i..] && AllUpto(ms[..i], a)
  {
    if ms == [] {
      i := 0;
    } else if ms[0].seqNo > a {
      i := 0;
      forall j: nat | j < |ms| ensures ms[j].seqNo > a {
        assert j > 0 ==> ms[0].seqNo < ms[j].seqNo;
      }
      AboveAll(ms, a);
    } else {
      assert Sorted(ms[1..]);
      var k := AboveIsSuffix(ms[1..], a);
      i := k + 1;
      assert ms[1..][k..] == ms[i..];
      forall j: nat | j < |ms[..i]| ensures ms[..i][j].seqNo <= a {
        assert j > 0 ==> ms[1..][..k][j - 1] == ms[j];
      }
    }
  }

  lemma AboveIsSorted(ms: seq<Message>, a: int)
    requires Sorted(ms)
    ensures Sorted(Above(ms, a))
  {
    var i := AboveIsSuffix(ms, a);
  }

  /** Two acknowledgements leave the same messages exactly when nothing lies between them. */
  lemma {:induction false} AboveSame(ms: seq<Message>, a: int, b: int)
    requires a <= b
    ensures Above(ms, a) == Above(ms, b) <==> NoneWithin(ms, a, b)
    ensures |Above(ms, b)| <= |Above(ms, a)|
  {
    if ms != [] {
      AboveSame(ms[1..], a, b);
      if ms[0].seqNo > b {
        assert Above(ms, a)[1..] == Above(ms[1..], a) && Above(ms, b)[1..] == Above(ms[1..], b);
      }
      if NoneWithin(ms, a, b) {
        assert NoneWithin(ms[1..], a, b);
      }
      if NoneWithin(ms[1..], a, b) && !(a < ms[0].seqNo <= b) {
        forall i: nat | i < |ms| ensures !(a < ms[i].seqNo <= b) {
          assert i > 0 ==> ms[i] == ms[1..][i - 1];
        }
      }
    }
  }

  lemma {:induction false} WithoutAbove(ms: seq<Message>, unwritten: set<int>, a: int)
    ensures Above(Without(ms, unwritten), a) == Without(Above(ms, a), unwritten)
  {
    if ms != [] {
      WithoutAbove(ms[1..], unwritten, a);
      if ms[0].seqNo !in unwritten {
        assert Without(ms, unwritten)[1..] == Without(ms[1..], unwritten);
      }
      if ms[0].seqNo > a {
        assert Above(ms, a)[1..] == Above(ms[1..], a);
      }
    }
  }

  lemma {:induction false} WithoutAppend(ms: seq<Message>, m: Message, unwritten: set<int>)
    ensures Without(ms + [m], unwritten) ==
            if m.seqNo !in unwritten then Without(ms, unwritten) + [m] else Without(ms, unwritten)
  {
    if ms == [] {
      assert ms + [m] == [m] && [m][1..] == [];
    } else {
      assert (ms + [m])[1..] == ms[1..] + [m];
      WithoutAppend(ms[1..], m, unwritten);
    }
  }

  lemma {:induction false} WithoutUnchanged(ms: seq<Message>, unwritten: set<int>, n: int)
    requires forall i: nat :: i < |ms| ==> ms[i].seqNo != n
    ensures Without(ms, unwritten + {n}) == Without(ms, unwritten)
  {
    if ms != [] {
      WithoutUnchanged(ms[1..], unwritten, n);
    }
  }

  lemma {:induction false} WithoutNothing(ms: seq<Message>)
    ensures Without(ms, {}) == ms
  {
    if ms != [] {
      WithoutNothing(ms[1..]);
    }
  }

  // ---------------------------------------------------------------------------------------------
  // Operations
  // ---------------------------------------------------------------------------------------------

  predicate Failed(r: Rewrite) {
    r != Rewritten(true)
  }

  /** The log becomes what is in memory, or stays as it was. */
  function Compact(s: State, r: Rewrite): State {
    if r.Untouched? then s else s.(log := s.messages, unwritten := {})
  }

  /** The oldest message makes room when the queue is full. */
  function MakeRoom(s: State): State {
    if |s.messages| >= s.maxSize && s.messages != []
    then s.(messages := s.messages[1..], floor := s.messages[0].seqNo)
    else s
  }

  function Append(s: State, m: Message, appended: bool): State {
    if appended then s.(messages := s.messages + [m], log := s.log + [m])
    else s.(messages := s.messages + [m], unwritten := s.unwritten + {m.seqNo})
  }

  /** Queues a message and writes it to the log. False if that failed, although it stays queued. */
  function Push(s: State, m: Message, appended: bool, rewrite: Rewrite): (State, bool) {
    var full := |s.messages| >= s.maxSize;
    var r := Append(MakeRoom(s), m, appended).(counter := m.seqNo);
    if !appended then (r, false)
    else if full then (Compact(r, rewrite), !Failed(rewrite))
    else (r, true)
  }

  /** Compaction waits until it is worth the effort. */
  predicate Compacts(removed: int, recent: bool, small: bool) {
    removed != 0 && (removed >= 100 || (!recent && !small))
  }

  /** Forgets everything up to `a`. */
  function Prune(s: State, a: int, recent: bool, small: bool, rewrite: Rewrite): State {
    var kept := Above(s.messages, a);
    var r := s.(messages := kept, floor := Max(s.floor, a));
    if Compacts(|s.messages| - |kept|, recent, small) then Compact(r, rewrite) else r
  }

  /** The server has everything up to `a`. The number is written to disk even if it is an old one. */
  function Ack(s: State, a: int, recent: bool, small: bool, rewrite: Rewrite, noted: bool): State {
    Prune(s, a, recent, small, rewrite).(saved := if noted then a else s.saved)
  }

  function MinSeq(ms: seq<Message>): int
    requires ms != []
  {
    if |ms| == 1 then ms[0].seqNo else
      var rest := MinSeq(ms[1..]);
      if ms[0].seqNo < rest then ms[0].seqNo else rest
  }

  /** Zero for an empty queue. */
  function MaxSeq(ms: seq<Message>): int {
    if ms == [] then 0 else Max(ms[0].seqNo, MaxSeq(ms[1..]))
  }

  function Shift(ms: seq<Message>, offset: int): seq<Message> {
    if ms == [] then [] else [ms[0].(seqNo := ms[0].seqNo + offset)] + Shift(ms[1..], offset)
  }

  /** Renumbers all messages so that they lie above `floor`, keeping their distances. */
  function Rebased(ms: seq<Message>, floor: int): seq<Message> {
    if ms == [] || MinSeq(ms) > floor then ms else Shift(ms, floor + 1 - MinSeq(ms))
  }

  /** The queue after loading the log and dropping what the server is known to have. */
  function Reload(s: State): seq<Message> {
    Above(s.log, s.saved)
  }

  datatype StartAnswers = StartAnswers(recent: bool, small: bool, pruned: Rewrite, rebased: Rewrite)

  function Load(s: State): State {
    s.(messages := s.log, floor := s.saved, unwritten := {})
  }

  predicate PruneFails(s: State, answers: StartAnswers) {
    Compacts(|s.log| - |Reload(s)|, answers.recent, answers.small) && Failed(answers.pruned)
  }

  predicate RebaseFails(s: State, answers: StartAnswers) {
    Rebased(Reload(s), Max(s.saved, 1)) != Reload(s) && Failed(answers.rebased)
  }

  /** Renumbers the queue above the number reserved for the greeting and writes it out if that changed it. */
  function Rebase(s: State, floor: int, rewrite: Rewrite): State {
    var moved := Rebased(s.messages, floor);
    if moved == s.messages then s else Compact(s.(messages := moved), rewrite)
  }

  /** The queue once acknowledged messages are gone and the greeting's number is reserved. */
  function Prepare(s: State, answers: StartAnswers): State {
    var pruned := Prune(Load(s), s.saved, answers.recent, answers.small, answers.pruned);
    if PruneFails(s, answers) then pruned else Rebase(pruned, Max(s.saved, 1), answers.rebased)
  }

  /**
   Starts the process: loads the log, drops acknowledged messages, reserves the greeting's number and
   puts the counter above all others. Any failed write keeps the process from starting.
   */
  function Start(s: State, answers: StartAnswers): State {
    var r := Prepare(s, answers);
    if PruneFails(s, answers) || RebaseFails(s, answers) then r
    else r.(running := true, counter := Max(Max(1, MaxSeq(s.log)), Max(s.saved, MaxSeq(r.messages))))
  }

  /** Where the counter stands after a start. */
  function StartCounter(s: State): int {
    Max(Max(1, MaxSeq(s.log)), Max(s.saved, MaxSeq(Rebased(Reload(s), Max(s.saved, 1)))))
  }

  datatype Event =
    | PushEvent(message: Message, appended: bool, rewrite: Rewrite)
    | AckEvent(upto: int, recent: bool, small: bool, rewrite: Rewrite, noted: bool)
    | StopEvent
    | StartEvent(answers: StartAnswers)

  predicate Enabled(s: State, e: Event) {
    match e
    case PushEvent(m, _, _) => s.running && m.seqNo > s.counter
    case AckEvent(a, _, _, _, _) => s.running && 0 < a <= s.counter
    case StopEvent => s.running
    case StartEvent(_) => !s.running
  }

  function Step(s: State, e: Event): State {
    if !Enabled(s, e) then s
    else
      match e
      case PushEvent(m, appended, rewrite) => Push(s, m, appended, rewrite).0
      case AckEvent(a, recent, small, rewrite, noted) => Ack(s, a, recent, small, rewrite, noted)
      case StopEvent => s.(running := false)
      case StartEvent(answers) => Start(s, answers)
  }

  function Run(s: State, events: seq<Event>): State {
    if events == [] then s else Step(Run(s, events[..|events| - 1]), events[|events| - 1])
  }

  /** A process that is not running, with whatever an earlier one left on disk. */
  function Stopped(maxSize: nat, log: seq<Message>, saved: int): State {
    State(false, maxSize, [], log, saved, 0, saved, {})
  }

  // ---------------------------------------------------------------------------------------------
  // The invariant
  // ---------------------------------------------------------------------------------------------

  ghost predicate DiskOk(s: State) {
    Sorted(s.log) && s.maxSize >= 1
  }

  ghost predicate MemoryOk(s: State) {
    && Sorted(s.messages) && AllAbove(s.messages, s.floor) && AllUpto(s.messages, s.counter)
    && AllUpto(s.log, s.counter)
    && Above(s.log, s.floor) == Without(s.messages, s.unwritten)
    && s.saved <= s.floor <= s.counter
    && (forall n :: n in s.unwritten ==> n <= s.counter)
  }

  ghost predicate Inv(s: State) {
    DiskOk(s) && (s.running ==> MemoryOk(s))
  }

  lemma CompactKeepsInv(s: State, r: Rewrite)
    requires DiskOk(s) && MemoryOk(s)
    ensures DiskOk(Compact(s, r)) && MemoryOk(Compact(s, r))
  {
    AboveAll(s.messages, s.floor);
    WithoutNothing(s.messages);
  }

  lemma {:induction false} SortedAppend(ms: seq<Message>, m: Message)
    requires Sorted(ms) && AllUpto(ms, m.seqNo - 1)
    ensures Sorted(ms + [m])
  {
    forall i: nat, j: nat | i < j < |ms + [m]| ensures (ms + [m])[i].seqNo < (ms + [m])[j].seqNo {
    }
  }

  lemma MakeRoomKeepsInv(s: State)
    requires DiskOk(s) && MemoryOk(s)
    ensures DiskOk(MakeRoom(s)) && MemoryOk(MakeRoom(s))
  {
    if |s.messages| >= s.maxSize && s.messages != [] {
      var a := s.messages[0].seqNo;
      AboveTwice(s.log, s.floor, a);
      WithoutAbove(s.messages, s.unwritten, a);
      AboveAll(s.messages[1..], a);
      assert AllAbove(s.messages[1..], a);
      assert Above(s.messages, a) == Above(s.messages[1..], a);
    }
  }

  lemma WrittenKeepsInv(s: State, m: Message)
    requires DiskOk(s) && MemoryOk(s) && m.seqNo > s.counter
    ensures var r := Append(s, m, true).(counter := m.seqNo);
      DiskOk(r) && MemoryOk(r)
  {
    SortedAppend(s.log, m);
    SortedAppend(s.messages, m);
    AboveAppend(s.log, m, s.floor);
    WithoutAppend(s.messages, m, s.unwritten);
  }

  lemma UnwrittenKeepsInv(s: State, m: Message)
    requires DiskOk(s) && MemoryOk(s) && m.seqNo > s.counter
    ensures var r := Append(s, m, false).(counter := m.seqNo);
      DiskOk(r) && MemoryOk(r)
  {
    SortedAppend(s.messages, m);
    WithoutUnchanged(s.messages, s.unwritten, m.seqNo);
    WithoutAppend(s.messages, m, s.unwritten + {m.seqNo});
  }

  lemma AppendKeepsInv(s: State, m: Message, appended: bool)
    requires DiskOk(s) && MemoryOk(s) && m.seqNo > s.counter
    ensures var r := Append(s, m, appended).(counter := m.seqNo);
      DiskOk(r) && MemoryOk(r)
  {
    if appended {
      WrittenKeepsInv(s, m);
    } else {
      UnwrittenKeepsInv(s, m);
    }
  }

  lemma PushKeepsInv(s: State, m: Message, appended: bool, rewrite: Rewrite)
    requires DiskOk(s) && MemoryOk(s) && m.seqNo > s.counter
    ensures DiskOk(Push(s, m, appended, rewrite).0) && MemoryOk(Push(s, m, appended, rewrite).0)
  {
    MakeRoomKeepsInv(s);
    AppendKeepsInv(MakeRoom(s), m, appended);
    CompactKeepsInv(Append(MakeRoom(s), m, appended).(counter := m.seqNo), rewrite);
  }

  lemma PruneKeepsInv(s: State, a: int, recent: bool, small: bool, rewrite: Rewrite)
    requires DiskOk(s) && MemoryOk(s) && a <= s.counter
    ensures DiskOk(Prune(s, a, recent, small, rewrite)) && MemoryOk(Prune(s, a, recent, small, rewrite))
  {
    var r := s.(messages := Above(s.messages, a), floor := Max(s.floor, a));
    AboveIsSorted(s.messages, a);
    AboveIsAbove(s.messages, a);
    AboveKeepsBounds(s.messages, a, s.counter);
    AboveTwice(s.log, s.floor, a);
    WithoutAbove(s.messages, s.unwritten, a);
    AboveKeepsFloor(s.messages, a, s.floor);
    CompactKeepsInv(r, rewrite);
  }

  lemma AckKeepsInv(s: State, a: int, recent: bool, small: bool, rewrite: Rewrite, noted: bool)
    requires DiskOk(s) && MemoryOk(s) && a <= s.counter
    ensures
      var r := Ack(s, a, recent, small, rewrite, noted);
      DiskOk(r) && MemoryOk(r)
  {
    PruneKeepsInv(s, a, recent, small, rewrite);
  }

  // Starting

  lemma {:induction false} ShiftAt(ms: seq<Message>, offset: int)
    ensures |Shift(ms, offset)| == |ms|
    ensures forall i: nat :: i < |ms| ==> Shift(ms, offset)[i] == ms[i].(seqNo := ms[i].seqNo + offset)
  {
    if ms != [] {
      ShiftAt(ms[1..], offset);
    }
  }

  lemma {:induction false} MinSeqIsLeast(ms: seq<Message>)
    requires ms != []
    ensures AllAbove(ms, MinSeq(ms) - 1)
    ensures exists i: nat :: i < |ms| && ms[i].seqNo == MinSeq(ms)
  {
    if |ms| > 1 {
      MinSeqIsLeast(ms[1..]);
      var i: nat :| i < |ms[1..]| && ms[1..][i].seqNo == MinSeq(ms[1..]);
      assert ms[i + 1].seqNo == MinSeq(ms[1..]);
      assert ms == [ms[0]] + ms[1..];
      assert ms[0].seqNo == MinSeq(ms) || ms[i + 1].seqNo == MinSeq(ms);
    } else {
      assert ms[0].seqNo == MinSeq(ms);
    }
  }

  lemma {:induction false} MaxSeqIsGreatest(ms: seq<Message>)
    ensures AllUpto(ms, MaxSeq(ms))
  {
    if ms != [] {
      MaxSeqIsGreatest(ms[1..]);
      forall i: nat | i < |ms| ensures ms[i].seqNo <= MaxSeq(ms) {
        assert i > 0 ==> ms[i] == ms[1..][i - 1];
      }
    }
  }

  lemma {:induction false} MaxSeqAppend(ms: seq<Message>, m: Message)
    ensures MaxSeq(ms + [m]) == Max(MaxSeq(ms), m.seqNo)
  {
    if ms == [] {
      assert ms + [m] == [m];
    } else {
      assert (ms + [m])[1..] == ms[1..] + [m];
      MaxSeqAppend(ms[1..], m);
    }
  }

  lemma {:induction false} MinSeqAppend(ms: seq<Message>, m: Message)
    requires ms != []
    ensures MinSeq(ms + [m]) == if m.seqNo < MinSeq(ms) then m.seqNo else MinSeq(ms)
  {
    assert (ms + [m])[1..] == ms[1..] + [m];
    if |ms| > 1 {
      MinSeqAppend(ms[1..], m);
    } else {
      assert ms[1..] + [m] == [m];
    }
  }

  /** How far a rebase moves every message. */
  function Offset(ms: seq<Message>, floor: int): int {
    if ms == [] || MinSeq(ms) > floor then 0 else floor + 1 - MinSeq(ms)
  }

  /** A rebase keeps the order, the contents and the distances of the messages, and clears the floor. */
  lemma RebasedKeeps(ms: seq<Message>, floor: int)
    ensures
      var r := Rebased(ms, floor);
      && |r| == |ms| && AllAbove(r, floor) && (Sorted(ms) ==> Sorted(r))
      && (forall i: nat :: i < |ms| ==> r[i] == ms[i].(seqNo := ms[i].seqNo + Offset(ms, floor)))
      && (r == ms <==> AllAbove(ms, floor))
  {
    if ms != [] {
      MinSeqIsLeast(ms);
      var i: nat :| i < |ms| && ms[i].seqNo == MinSeq(ms);
      ShiftAt(ms, floor + 1 - MinSeq(ms));
      if MinSeq(ms) <= floor {
        var r := Shift(ms, floor + 1 - MinSeq(ms));
        assert r[i].seqNo == floor + 1;
        assert !AllAbove(ms, floor);
      }
    }
  }

  /** What the queue holds after a successful start, before or after the log was rewritten. */
  lemma StartedMessages(s: State, answers: StartAnswers)
    requires !s.running && Start(s, answers).running
    ensures Start(s, answers).messages == Rebased(Reload(s), Max(s.saved, 1))
    ensures Start(s, answers).log == Start(s, answers).messages || Start(s, answers).log == s.log
    ensures Start(s, answers).log == s.log ==> Start(s, answers).messages == Reload(s)
    ensures Start(s, answers).floor == s.saved == Start(s, answers).saved
    ensures Start(s, answers).unwritten == {} && Start(s, answers).maxSize == s.maxSize
    ensures Start(s, answers).counter == StartCounter(s)
  {
    if answers.rebased.Untouched? || Rebased(Reload(s), Max(s.saved, 1)) == Reload(s) {
      assert Start(s, answers).messages == Reload(s);
    }
  }

  lemma {:induction false} AboveKeepsMax(ms: seq<Message>, a: int)
    ensures MaxSeq(Above(ms, a)) <= Max(MaxSeq(ms), 0)
  {
    if ms != [] {
      AboveKeepsMax(ms[1..], a);
      if ms[0].seqNo > a {
        assert Above(ms, a)[1..] == Above(ms[1..], a);
      }
    }
  }

  /** Unless it renumbers, a start puts the counter at the greatest number on disk. */
  lemma CounterWithoutRebase(s: State)
    requires AllAbove(Reload(s), Max(s.saved, 1))
    ensures StartCounter(s) == Max(Max(1, s.saved), MaxSeq(s.log))
  {
    RebasedKeeps(Reload(s), Max(s.saved, 1));
    AboveKeepsMax(s.log, s.saved);
  }

  lemma PrunedState(s: State, a: int, recent: bool, small: bool, rewrite: Rewrite)
    ensures
      var r := Prune(s, a, recent, small, rewrite);
      && r.messages == Above(s.messages, a) && (r.log == s.log || r.log == r.messages)
      && r.maxSize == s.maxSize && r.saved == s.saved
  {
  }

  lemma RebasedState(s: State, floor: int, rewrite: Rewrite)
    ensures
      var r := Rebase(s, floor, rewrite);
      && r.messages == Rebased(s.messages, floor) && (r.log == s.log || r.log == r.messages)
      && r.maxSize == s.maxSize && r.saved == s.saved
  {
  }

  lemma PreparedLog(s: State, answers: StartAnswers)
    ensures
      var r := Prepare(s, answers);
      && r.maxSize == s.maxSize && r.saved == s.saved
      && (r.log == s.log || r.log == Reload(s) || r.log == Rebased(Reload(s), Max(s.saved, 1)))
  {
    var pruned := Prune(Load(s), s.saved, answers.recent, answers.small, answers.pruned);
    PrunedState(Load(s), s.saved, answers.recent, answers.small, answers.pruned);
    if !PruneFails(s, answers) {
      RebasedState(pruned, Max(s.saved, 1), answers.rebased);
    }
  }

  lemma StartedLog(s: State, answers: StartAnswers)
    ensures
      var r := Start(s, answers);
      && r.maxSize == s.maxSize && r.saved == s.saved
      && (r.log == s.log || r.log == Reload(s) || r.log == Rebased(Reload(s), Max(s.saved, 1)))
  {
    PreparedLog(s, answers);
  }

  lemma StartedDisk(s: State, answers: StartAnswers)
    requires DiskOk(s)
    ensures DiskOk(Start(s, answers))
  {
    StartedLog(s, answers);
    AboveIsSorted(s.log, s.saved);
    RebasedKeeps(Reload(s), Max(s.saved, 1));
  }

  lemma StartedMemory(s: State, answers: StartAnswers)
    requires DiskOk(s) && !s.running && Start(s, answers).running
    ensures MemoryOk(Start(s, answers))
  {
    var r := Start(s, answers);
    StartedMessages(s, answers);
    AboveIsSorted(s.log, s.saved);
    RebasedKeeps(Reload(s), Max(s.saved, 1));
    MaxSeqIsGreatest(s.log);
    MaxSeqIsGreatest(r.messages);
    AboveAll(r.messages, s.saved);
    WithoutNothing(r.messages);
    AboveIsAbove(s.log, s.saved);
    StartedIsOk(r, s.log, s.saved);
  }

  /** A queue that was just loaded. */
  lemma StartedIsOk(r: State, loaded: seq<Message>, saved: int)
    requires Sorted(r.messages) && AllAbove(r.messages, saved) && r.saved == r.floor == saved && r.unwritten == {}
    requires saved <= r.counter && AllUpto(r.messages, r.counter) && AllUpto(loaded, r.counter)
    requires r.log == r.messages || (r.log == loaded && r.messages == Above(loaded, saved))
    ensures MemoryOk(r)
  {
    AboveAll(r.messages, saved);
    WithoutNothing(r.messages);
  }

  lemma StartKeepsInv(s: State, answers: StartAnswers)
    requires DiskOk(s) && !s.running
    ensures Inv(Start(s, answers))
  {
    StartedDisk(s, answers);
    if Start(s, answers).running {
      StartedMemory(s, answers);
    }
  }

  lemma StepKeepsInv(s: State, e: Event)
    requires Inv(s)
    ensures Inv(Step(s, e))
  {
    if Enabled(s, e) {
      match e
      case PushEvent(m, appended, rewrite) => PushKeepsInv(s, m, appended, rewrite);
      case AckEvent(a, recent, small, rewrite, noted) => AckKeepsInv(s, a, recent, small, rewrite, noted);
      case StopEvent =>
      case StartEvent(answers) => StartKeepsInv(s, answers);
    }
  }

  lemma {:induction false} RunKeepsInv(s: State, events: seq<Event>)
    requires Inv(s)
    ensures Inv(Run(s, events))
  {
    if events != [] {
      RunKeepsInv(s, events[..|events| - 1]);
      StepKeepsInv(Run(s, events[..|events| - 1]), events[|events| - 1]);
    }
  }

  // ---------------------------------------------------------------------------------------------
  // Starting again refines what was in memory
  // ---------------------------------------------------------------------------------------------

  /** The messages on disk that the server has not been noted to have, but that have left the queue. */
  function Stale(s: State): seq<Message> {
    UptoAbove(s.log, s.saved, s.floor)
  }

  /** The messages with numbers in (a, b]. */
  function UptoAbove(ms: seq<Message>, a: int, b: int): seq<Message> {
    if ms == [] then []
    else if a < ms[0].seqNo <= b then [ms[0]] + UptoAbove(ms[1..], a, b)
    else UptoAbove(ms[1..], a, b)
  }

  lemma {:induction false} UptoAboveIsUpto(ms: seq<Message>, a: int, b: int)
    ensures AllUpto(UptoAbove(ms, a, b), b)
  {
    if ms != [] {
      UptoAboveIsUpto(ms[1..], a, b);
    }
  }

  lemma {:induction false} AboveSplits(ms: seq<Message>, a: int, b: int)
    requires Sorted(ms) && a <= b
    ensures Above(ms, a) == UptoAbove(ms, a, b) + Above(ms, b)
  {
    if ms == [] {
    } else if ms[0].seqNo > b {
      NothingBelow(ms, a, b);
    } else {
      AboveSplits(ms[1..], a, b);
      SplitHead(ms, a, b);
    }
  }

  lemma SplitHead(ms: seq<Message>, a: int, b: int)
    requires ms != [] && ms[0].seqNo <= b
    requires Above(ms[1..], a) == UptoAbove(ms[1..], a, b) + Above(ms[1..], b)
    ensures Above(ms, a) == UptoAbove(ms, a, b) + Above(ms, b)
  {
    var u, v := UptoAbove(ms[1..], a, b), Above(ms[1..], b);
    if ms[0].seqNo > a {
      assert Above(ms, a) == [ms[0]] + (u + v) == ([ms[0]] + u) + v;
    }
  }

  lemma {:induction false} NothingBelow(ms: seq<Message>, a: int, b: int)
    requires AllAbove(ms, b) || (Sorted(ms) && ms != [] && ms[0].seqNo > b)
    ensures UptoAbove(ms, a, b) == [] && (a <= b ==> Above(ms, a) == ms == Above(ms, b))
  {
    if ms != [] {
      forall i: nat | i < |ms| ensures ms[i].seqNo > b {
        assert i > 0 && Sorted(ms) ==> ms[0].seqNo < ms[i].seqNo;
      }
      assert AllAbove(ms[1..], b);
      NothingBelow(ms[1..], a, b);
      AboveAll(ms, b);
      if a <= b {
        assert AllAbove(ms, a);
        AboveAll(ms, a);
      }
    }
  }

  /**
   In every state of every run, starting again finds the queued messages, except those whose append
   failed, behind some messages that have left the queue already.
   */
  lemma RecoveryKeepsQueue(s: State, events: seq<Event>)
    requires Inv(s) && Run(s, events).running
    ensures
      var t := Run(s, events);
      && Reload(t) == Stale(t) + Without(t.messages, t.unwritten)
      && AllUpto(Stale(t), t.floor) && AllAbove(t.messages, t.floor)
  {
    RunKeepsInv(s, events);
    var t := Run(s, events);
    AboveSplits(t.log, t.saved, t.floor);
    UptoAboveIsUpto(t.log, t.saved, t.floor);
  }

  /** Starting again would find exactly the queued messages. */
  predicate Exact(s: State) {
    s.running && Reload(s) == s.messages
  }

  lemma PushedMemory(s: State, m: Message, appended: bool, rewrite: Rewrite)
    ensures Push(s, m, appended, rewrite).0.messages == MakeRoom(s).messages + [m]
    ensures Push(s, m, appended, rewrite).0.saved == s.saved
    ensures Push(s, m, appended, rewrite).0.log
         == if !appended then s.log
            else if |s.messages| >= s.maxSize && rewrite.Rewritten? then MakeRoom(s).messages + [m]
            else s.log + [m]
  {
  }

  /**
   A push queues its message behind the others, of which only the oldest makes room, and only in a full queue.
   It counts as persisted exactly if the line was appended and the rewrite that making room calls for worked.
   */
  lemma PushIsAnswered(s: State, m: Message, appended: bool, rewrite: Rewrite)
    requires s.maxSize >= 1
    ensures
      var (r, ok) := Push(s, m, appended, rewrite);
      var isFull := |s.messages| >= s.maxSize;
      && r.messages == (if isFull then s.messages[1..] else s.messages) + [m]
      && (|s.messages| <= s.maxSize ==> |r.messages| <= s.maxSize)
      && (ok <==> appended && (isFull ==> rewrite == Rewritten(true)))
      && (ok ==> r.log != [] && r.log[|r.log| - 1] == m)
      && r.saved == s.saved && r.counter == m.seqNo
  {
  }

  /**
   An acknowledgement leaves exactly the messages above its number, and rewrites the log if that removes 100
   messages, or some while the log is neither recent nor small.
   */
  lemma AckIsApplied(s: State, a: int, recent: bool, small: bool, rewrite: Rewrite, noted: bool, m: Message)
    ensures
      var r := Ack(s, a, recent, small, rewrite, noted);
      var removed := |s.messages| - |r.messages|;
      && (m in r.messages <==> m in s.messages && m.seqNo > a)
      && r.log == (if removed >= 100 || (removed > 0 && !recent && !small)
                   then (if rewrite.Rewritten? then r.messages else s.log) else s.log)
      && r.saved == (if noted then a else s.saved) && r.counter == s.counter
  {
    AboveHolds(s.messages, a, m);
    AboveAll(s.messages, a);
  }

  /** A push keeps disk and memory equal exactly when every write that it needs takes effect. */
  lemma PushKeepsExact(s: State, m: Message, appended: bool, rewrite: Rewrite)
    requires Inv(s) && Exact(s) && m.seqNo > s.counter
    ensures Exact(Push(s, m, appended, rewrite).0)
      <==> appended && (|s.messages| >= s.maxSize ==> rewrite.Rewritten?)
  {
    var r := Push(s, m, appended, rewrite).0;
    PushedMemory(s, m, appended, rewrite);
    AboveAppend(s.log, m, s.saved);
    PushKeepsInv(s, m, appended, rewrite);
    if |s.messages| >= s.maxSize && appended && rewrite.Rewritten? {
      assert AllAbove(r.messages, s.saved);
      AboveAll(r.messages, s.saved);
    }
    if !appended {
      assert m in r.messages && m.seqNo == r.messages[|r.messages| - 1].seqNo;
      AboveKeepsBounds(s.log, s.saved, s.counter);
      assert Reload(r) != [] ==> Reload(r)[|Reload(r)| - 1].seqNo <= s.counter;
    }
  }

  /**
   An acknowledgement keeps disk and memory equal exactly when it rewrites the log, or nothing on
   disk lies above the number that is now saved and at or below the highest one known: so always
   when the saved numbers never decrease.
   */
  lemma AckKeepsExact(s: State, a: int, recent: bool, small: bool, rewrite: Rewrite, noted: bool)
    requires Inv(s) && Exact(s) && a <= s.counter
    ensures
      var r := Ack(s, a, recent, small, rewrite, noted);
      var rewritten := Compacts(|s.messages| - |r.messages|, recent, small) && rewrite.Rewritten?;
      && (Exact(r) <==> rewritten || NoneWithin(s.log, if noted then a else s.saved, Max(a, s.saved)))
      && (noted && a >= s.saved ==> Exact(r))
  {
    var r := Ack(s, a, recent, small, rewrite, noted);
    var n := if noted then a else s.saved;
    AboveTwice(s.log, s.saved, a);
    assert r.messages == Above(s.log, Max(a, s.saved));
    if Compacts(|s.messages| - |r.messages|, recent, small) && rewrite.Rewritten? {
      AboveTwice(s.log, Max(a, s.saved), n);
    } else {
      AboveSame(s.log, n, Max(a, s.saved));
    }
  }

  /** A run whose writes all take effect and whose saved numbers never decrease. */
  predicate Steady(s: State, e: Event) {
    match e
    case PushEvent(_, appended, rewrite) => appended && (|s.messages| >= s.maxSize ==> rewrite.Rewritten?)
    case AckEvent(a, _, _, _, noted) => noted && a >= s.saved
    case StopEvent => true
    case StartEvent(_) => true
  }

  predicate SteadyRun(s: State, events: seq<Event>) {
    || events == []
    || (SteadyRun(s, events[..|events| - 1]) && Steady(Run(s, events[..|events| - 1]), events[|events| - 1]))
  }

  lemma StartIsExact(s: State, answers: StartAnswers)
    requires DiskOk(s) && !s.running && Start(s, answers).running
    ensures Exact(Start(s, answers))
  {
    var r := Start(s, answers);
    StartedMessages(s, answers);
    RebasedKeeps(Reload(s), Max(s.saved, 1));
    AboveAll(r.messages, s.saved);
    assert AllAbove(r.messages, s.saved);
  }

  /** Disk and memory agree throughout every steady run, across any number of restarts. */
  lemma {:induction false} SteadyRunsAreExact(s: State, events: seq<Event>)
    requires Inv(s) && SteadyRun(s, events)
    requires s.running ==> Exact(s)
    ensures Run(s, events).running ==> Exact(Run(s, events))
  {
    if events != [] {
      var before := events[..|events| - 1];
      SteadyRunsAreExact(s, before);
      RunKeepsInv(s, before);
      var t, e := Run(s, before), events[|events| - 1];
      if Enabled(t, e) {
        match e
        case PushEvent(m, appended, rewrite) => PushKeepsExact(t, m, appended, rewrite);
        case AckEvent(a, recent, small, rewrite, noted) => AckKeepsExact(t, a, recent, small, rewrite, noted);
        case StopEvent =>
        case StartEvent(answers) =>
          if Start(t, answers).running {
            StartIsExact(t, answers);
          }
      }
    }
  }

  const TWO := Message(2, "a", "")
  const THREE := Message(3, "b", "")

  const NOTHING := Stopped(10, [], 0)
  const WROTE := StartAnswers(true, true, Untouched, Untouched)

  /** A process starts on an empty disk, queues two messages, and handles the later acknowledgement first. */
  function AcksOutOfOrder(): seq<Event> {
    [StartEvent(WROTE), PushEvent(TWO, true, Untouched), PushEvent(THREE, true, Untouched),
     AckEvent(3, true, true, Untouched, true), AckEvent(2, true, true, Untouched, true)]
  }

  function Queueing(messages: seq<Message>, log: seq<Message>, saved: int, counter: int, floor: int): State {
    State(true, 10, messages, log, saved, counter, floor, {})
  }

  lemma RunOneMore(s: State, events: seq<Event>, e: Event)
    ensures Run(s, events + [e]) == Step(Run(s, events), e)
  {
    assert (events + [e])[..|events|] == events;
  }

  lemma NothingStarts()
    ensures Step(NOTHING, StartEvent(WROTE)) == Queueing([], [], 0, 1, 0)
  {
    assert Reload(NOTHING) == [];
  }

  lemma TwoArePushed()
    ensures Run(NOTHING, AcksOutOfOrder()[..3]) == Queueing([TWO, THREE], [TWO, THREE], 0, 3, 0)
  {
    var events := AcksOutOfOrder();
    NothingStarts();
    assert events[..0] == [] && events[..1] == [] + [events[0]];
    RunOneMore(NOTHING, [], events[0]);
    assert events[..2] == events[..1] + [events[1]];
    RunOneMore(NOTHING, events[..1], events[1]);
    assert [] + [TWO] == [TWO] && [TWO] + [THREE] == [TWO, THREE];
    assert Run(NOTHING, events[..2]) == Queueing([TWO], [TWO], 0, 2, 0);
    assert events[..3] == events[..2] + [events[2]];
    RunOneMore(NOTHING, events[..2], events[2]);
  }

  lemma LaterIsAcknowledged()
    ensures Step(Queueing([TWO, THREE], [TWO, THREE], 0, 3, 0), AckEvent(3, true, true, Untouched, true))
         == Queueing([], [TWO, THREE], 3, 3, 3)
  {
    TwoMessages(TWO, THREE, 3);
  }

  /**
   If acknowledgements came out of order the older number would be saved, and a restart would bring a message
   back that has been acknowledged.
   */
  lemma OldAckBringsMessagesBack()
    ensures
      var t := Run(NOTHING, AcksOutOfOrder());
      t.running && t.messages == [] && t.floor == 3 && Reload(t) == [THREE]
  {
    var events := AcksOutOfOrder();
    TwoArePushed();
    LaterIsAcknowledged();
    assert events[..4] == events[..3] + [events[3]] && events == events[..4] + [events[4]];
    RunOneMore(NOTHING, events[..3], events[3]);
    RunOneMore(NOTHING, events[..4], events[4]);
    TwoMessages(TWO, THREE, 2);
  }

  lemma TwoMessages(x: Message, y: Message, a: int)
    ensures Above([x, y], a) == (if x.seqNo > a then [x] else []) + (if y.seqNo > a then [y] else [])
  {
    assert [x, y][1..] == [y] && [y][1..] == [];
    assert Above([y], a) == if y.seqNo > a then [y] else [];
  }

  /**
   A start keeps every message that is not known to have arrived, in order and at the old distances.
   All of them lie above the greeting's number and at or below the counter, so neither the greeting nor
   the next message has the number of a message that was found. Numbers that never reached the log or
   were rewritten away count for nothing here. The log may come from any earlier version.
   */
  lemma StartKeepsMessages(s: State, answers: StartAnswers)
    requires !s.running && Start(s, answers).running
    ensures
      var r := Start(s, answers);
      var left := Reload(s);
      && |r.messages| == |left|
      && (forall i: nat :: i < |left| ==>
            r.messages[i].kind == left[i].kind && r.messages[i].payload == left[i].payload)
      && (forall i: nat, j: nat :: i < |left| && j < |left| ==>
            r.messages[i].seqNo - r.messages[j].seqNo == left[i].seqNo - left[j].seqNo)
      && AllAbove(r.messages, Max(s.saved, 1)) && AllUpto(r.messages, r.counter) && AllUpto(s.log, r.counter)
      && Max(s.saved, 1) <= r.counter
      && (r.messages == left <==> AllAbove(left, Max(s.saved, 1)))
  {
    var r := Start(s, answers);
    StartedMessages(s, answers);
    RebasedKeeps(Reload(s), Max(s.saved, 1));
    MaxSeqIsGreatest(s.log);
    MaxSeqIsGreatest(r.messages);
  }

  // ---------------------------------------------------------------------------------------------
  // What keeps a process from starting
  // ---------------------------------------------------------------------------------------------

  /** A message that a start has to renumber: the server does not have it, and the greeting needs its number. */
  ghost predicate IsInTheWay(s: State, m: Message) {
    m in s.log && s.saved < m.seqNo <= 1
  }

  lemma {:induction false} AboveHolds(ms: seq<Message>, a: int, m: Message)
    ensures m in Above(ms, a) <==> m in ms && m.seqNo > a
  {
    if ms != [] {
      AboveHolds(ms[1..], a, m);
      assert ms == [ms[0]] + ms[1..];
    }
  }

  lemma RenumbersIff(s: State)
    ensures Rebased(Reload(s), Max(s.saved, 1)) != Reload(s) <==> exists m :: IsInTheWay(s, m)
  {
    var left, reserved := Reload(s), Max(s.saved, 1);
    RebasedKeeps(left, reserved);
    AboveIsAbove(s.log, s.saved);
    if !AllAbove(left, reserved) {
      var i: nat :| i < |left| && left[i].seqNo <= reserved;
      AboveHolds(s.log, s.saved, left[i]);
      assert IsInTheWay(s, left[i]);
    }
    if m :| IsInTheWay(s, m) {
      AboveHolds(s.log, s.saved, m);
    }
  }

  /**
   A start fails exactly if a rewrite fails that is due: because enough acknowledged messages are on disk, or
   because a message has to be renumbered.
   */
  lemma StartFailsIff(s: State, answers: StartAnswers)
    requires !s.running
    ensures
      var gone := |s.log| - |Above(s.log, s.saved)|;
      !Start(s, answers).running <==>
        || (gone > 0 && (gone >= 100 || !(answers.recent || answers.small)) && answers.pruned != Rewritten(true))
        || ((exists m :: IsInTheWay(s, m)) && answers.rebased != Rewritten(true))
  {
    RenumbersIff(s);
    AboveAll(s.log, s.saved);
  }

  /** Undelivered messages keep no process from starting while its writes take effect. */
  lemma SoundDiskStarts(s: State, answers: StartAnswers)
    requires !s.running && answers.pruned == answers.rebased == Rewritten(true)
    ensures Start(s, answers).running
  {
    StartFailsIff(s, answers);
  }

  /** Nothing needs writing if the whole log lies above the acknowledged and the greeting's number. */
  lemma CleanDiskStarts(s: State, answers: StartAnswers)
    requires !s.running && AllAbove(s.log, Max(s.saved, 1))
    ensures Start(s, answers).running && Start(s, answers).log == s.log == Start(s, answers).messages
  {
    assert AllAbove(s.log, s.saved);
    AboveAll(s.log, s.saved);
    RebasedKeeps(s.log, Max(s.saved, 1));
    StartedMessages(s, answers);
  }

  /** What a start leaves on disk holds the same undelivered messages, whichever write was the last. */
  lemma RewriteKeepsOwed(s: State, log: seq<Message>)
    requires log == s.log || log == Reload(s) || log == Rebased(Reload(s), Max(s.saved, 1))
    ensures
      var left, owed := Above(log, s.saved), Reload(s);
      && |left| == |owed|
      && forall i: nat :: i < |owed| ==> left[i].kind == owed[i].kind && left[i].payload == owed[i].payload
  {
    RebasedKeeps(Reload(s), Max(s.saved, 1));
    AboveTwice(s.log, s.saved, s.saved);
    if log != s.log && log != Reload(s) {
      assert AllAbove(log, s.saved);
      AboveAll(log, s.saved);
    }
  }

  /** A start that fails has lost nothing: the next one finds every message that is not known to have arrived. */
  lemma FailedStartKeepsMessages(s: State, answers: StartAnswers)
    requires !s.running && !Start(s, answers).running
    ensures
      var left, owed := Reload(Start(s, answers)), Reload(s);
      && |left| == |owed| && Start(s, answers).saved == s.saved
      && forall i: nat :: i < |owed| ==> left[i].kind == owed[i].kind && left[i].payload == owed[i].payload
  {
    StartedLog(s, answers);
    RewriteKeepsOwed(s, Start(s, answers).log);
  }

  /** The removal of acknowledged messages from disk is due. */
  predicate PruneIsDue(s: State, answers: StartAnswers) {
    var gone := |s.log| - |Above(s.log, s.saved)|;
    gone >= 100 || (gone > 0 && !answers.recent && !answers.small)
  }

  /**
   A start writes only what is due: it leaves the log alone if nothing is, and goes no further once the
   removal of acknowledged messages has failed.
   */
  lemma StartWritesOnlyWhatIsDue(s: State, answers: StartAnswers)
    requires !s.running
    ensures
      var r := Start(s, answers);
      && r.saved == s.saved
      && (!PruneIsDue(s, answers) && !(exists m :: IsInTheWay(s, m)) ==> r.log == s.log)
      && (PruneIsDue(s, answers) && answers.pruned != Rewritten(true) ==>
            !r.running && r.log == if answers.pruned.Untouched? then s.log else Reload(s))
  {
    RenumbersIff(s);
    AboveAll(s.log, s.saved);
  }

  /** Stopping and starting again gives back a queue that is on disk, under the same numbers. */
  lemma RestartKeepsQueue(s: State, answers: StartAnswers)
    requires Inv(s) && Exact(s) && AllAbove(s.messages, 1)
    requires answers.pruned == answers.rebased == Rewritten(true)
    ensures
      var r := Step(Step(s, StopEvent), StartEvent(answers));
      r.running && r.messages == s.messages && r.saved == s.saved
  {
    var stopped := Step(s, StopEvent);
    SoundDiskStarts(stopped, answers);
    StartedMessages(stopped, answers);
    RebasedKeeps(Reload(stopped), Max(stopped.saved, 1));
    AboveIsAbove(s.log, s.saved);
    assert AllAbove(Reload(stopped), Max(stopped.saved, 1));
  }
}
