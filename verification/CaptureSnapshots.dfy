/**
 The cache of terminal captures that clients page through: at most two of them, each forgotten after
 an hour without use, and the one that was used least recently makes room for a new one.
 */
module CaptureSnapshots {
  import opened Options
  import opened CaptureText
  import opened CapturePages
  import JsonText
  import Ordering

  const MAX_SNAPSHOTS := 2
  const IDLE_TTL_SECONDS := 3600

  /** One capture. Only the time of its last use ever changes. */
  datatype Snapshot = Snapshot(
    sessionId: string,
    paneId: string,
    stripAnsi: bool,
    lines: seq<Line>,
    sourceTotalLines: nat,
    truncated: bool,
    lastAccess: int)

  datatype SnapshotError = Expired | BeforeLineOutOfRange | PageTooLong

  // ---------------------------------------------------------------------------------------------
  // Which capture makes room
  // ---------------------------------------------------------------------------------------------

  /** `a`, last used at `s`, goes before `b`, last used at `t`. */
  predicate OlderThan(a: string, s: int, b: string, t: int) {
    s < t || (s == t && Ordering.Less(a, b))
  }

  /** `k` was used least recently; of captures used at the same time it has the least id. */
  ghost predicate IsOldest(entries: map<string, Snapshot>, k: string) {
    && k in entries
    && forall j {:trigger j in entries} :: j in entries && j != k ==>
         OlderThan(k, entries[k].lastAccess, j, entries[j].lastAccess)
  }

  lemma OldestIsUnique(entries: map<string, Snapshot>, a: string, b: string)
    requires IsOldest(entries, a) && IsOldest(entries, b)
    ensures a == b
  {
    Ordering.LessIsTotal(a, b);
  }

  /** Looks at the captures in whatever order the map yields them. */
  method FindOldest(entries: map<string, Snapshot>) returns (oldest: string)
    requires entries != map[]
    ensures IsOldest(entries, oldest)
    ensures forall j :: j in entries ==> entries[oldest].lastAccess <= entries[j].lastAccess
    ensures forall j :: j in entries && j != oldest && entries[oldest].lastAccess == entries[j].lastAccess ==>
              Ordering.Less(oldest, j)
  {
    var rest := entries.Keys;
    assert rest != {} by {
      assert entries.Keys == {} ==> entries == map[];
    }
    oldest :| oldest in rest;
    rest := rest - {oldest};
    while rest != {}
      invariant rest <= entries.Keys && oldest in entries && oldest !in rest
      invariant forall j {:trigger j in entries} :: j in entries && j !in rest && j != oldest ==>
                  OlderThan(oldest, entries[oldest].lastAccess, j, entries[j].lastAccess)
    {
      var id :| id in rest;
      Ordering.LessIsTotal(id, oldest);
      if OlderThan(id, entries[id].lastAccess, oldest, entries[oldest].lastAccess) {
        forall j | j in entries && j !in rest && j != oldest
          ensures OlderThan(id, entries[id].lastAccess, j, entries[j].lastAccess)
        {
          OlderIsTransitive(id, entries[id].lastAccess, oldest, entries[oldest].lastAccess, j, entries[j].lastAccess);
        }
        oldest := id;
      }
      rest := rest - {id};
    }
  }

  lemma OlderIsTransitive(a: string, s: int, b: string, t: int, c: string, u: int)
    requires OlderThan(a, s, b, t) && OlderThan(b, t, c, u)
    ensures OlderThan(a, s, c, u)
  {
    if s == t == u {
      Ordering.LessIsTransitive(a, b, c);
    }
  }

  // ---------------------------------------------------------------------------------------------
  // What the operations do to the cache
  // ---------------------------------------------------------------------------------------------

  function PruneExpired(entries: map<string, Snapshot>, now: int): map<string, Snapshot> {
    map k | k in entries && now - entries[k].lastAccess < IDLE_TTL_SECONDS :: entries[k]
  }

  /** The oldest captures are gone until a new one fits. */
  ghost predicate MadeRoom(before: map<string, Snapshot>, after: map<string, Snapshot>)
    decreases |before|
  {
    if |before| < MAX_SNAPSHOTS then after == before
    else exists k :: IsOldest(before, k) && MadeRoom(before - {k}, after)
  }

  lemma {:induction false} RoomIsUnique(before: map<string, Snapshot>, a: map<string, Snapshot>,
                                        b: map<string, Snapshot>)
    requires MadeRoom(before, a) && MadeRoom(before, b)
    ensures a == b
    decreases |before|
  {
    if |before| >= MAX_SNAPSHOTS {
      var j :| IsOldest(before, j) && MadeRoom(before - {j}, a);
      var k :| IsOldest(before, k) && MadeRoom(before - {k}, b);
      OldestIsUnique(before, j, k);
      RoomIsUnique(before - {j}, a, b);
    }
  }

  /** `id` may go although `j` stays. */
  predicate GoesFirst(before: map<string, Snapshot>, id: string, j: string)
    requires id in before && j in before
  {
    before[id].lastAccess <= before[j].lastAccess
  }

  /** Room is made for one capture and no more, by letting go of captures that were used before all that stay. */
  lemma {:induction false} OldestMakeRoom(before: map<string, Snapshot>, after: map<string, Snapshot>)
    requires MadeRoom(before, after)
    ensures after.Keys <= before.Keys && (forall id :: id in after ==> after[id] == before[id])
    ensures |after| == if |before| < 2 then |before| else 1
    ensures forall id, j {:trigger GoesFirst(before, id, j)} :: id in before && id !in after && j in after ==>
              GoesFirst(before, id, j)
    decreases |before|
  {
    if |before| >= 2 {
      var k :| IsOldest(before, k) && MadeRoom(before - {k}, after);
      OneLess(before, k);
      OldestMakeRoom(before - {k}, after);
      forall id, j | id in before && id !in after && j in after ensures GoesFirst(before, id, j) {
        OldestGoesFirst(before, k, j);
        assert id != k ==> GoesFirst(before - {k}, id, j);
      }
    }
  }

  lemma OldestGoesFirst(entries: map<string, Snapshot>, k: string, j: string)
    requires IsOldest(entries, k) && j in entries
    ensures GoesFirst(entries, k, j)
  {
  }

  lemma OneLess(entries: map<string, Snapshot>, k: string)
    requires k in entries
    ensures |entries - {k}| == |entries| - 1
  {
    assert (entries - {k}).Keys == entries.Keys - {k};
    assert |entries| == |entries.Keys| && |entries - {k}| == |(entries - {k}).Keys|;
  }

  /** What a fresh capture keeps of `content`. */
  ghost predicate Captures(snapshot: Snapshot, content: Line) {
    var source := CaptureLines(content);
    && snapshot.sourceTotalLines == |source|
    && snapshot.truncated == (|snapshot.lines| != |source|)
    && exists start: nat {:trigger IsNewest(source, start, MAX_SNAPSHOT_ROWS, MAX_SNAPSHOT_BYTES)} ::
         IsNewest(source, start, MAX_SNAPSHOT_ROWS, MAX_SNAPSHOT_BYTES) && snapshot.lines == source[start..]
  }

  /** A page of a capture as the reply describes it. */
  datatype Reply = Reply(
    content: Line,
    lineCount: int,
    snapshotId: string,
    rangeStart: int,
    rangeEnd: int,
    totalLines: int,
    sourceTotalLines: int,
    truncated: bool,
    hasOlder: bool,
    nextBefore: Option<int>)

  function ReplyFor(id: string, snapshot: Snapshot, page: Page): Reply {
    Reply(page.content, page.end - page.start, id, page.start, page.end, |snapshot.lines|, snapshot.sourceTotalLines,
          snapshot.truncated, page.hasOlder, if page.hasOlder then Some(page.start) else None)
  }

  /** The rules that the wire schema puts on the fields of a reply. */
  predicate SatisfiesSchema(r: Reply) {
    && 0 <= r.lineCount <= 5000
    && 0 <= r.rangeStart <= r.rangeEnd <= r.totalLines
    && r.lineCount == r.rangeEnd - r.rangeStart
    && 0 <= r.totalLines <= r.sourceTotalLines
    && (r.hasOlder ==> r.rangeStart != 0 && r.nextBefore == Some(r.rangeStart))
    && (r.nextBefore.Some? ==> r.nextBefore.value >= 0)
  }

  lemma RepliesSatisfySchema(id: string, snapshot: Snapshot, end: nat, pageSize: int)
    requires end <= |snapshot.lines| <= snapshot.sourceTotalLines && 1 <= pageSize <= MAX_PAGE_LINES
    requires MakePage(snapshot.lines, end, pageSize).Ok?
    ensures SatisfiesSchema(ReplyFor(id, snapshot, MakePage(snapshot.lines, end, pageSize).value))
  {
    FirstPageOk(snapshot.lines, end, pageSize);
  }

  /**
   A capture from which nothing was cut off is the captured text, up to its final newline, line by
   line; so whoever has gathered all its pages has the text.
   */
  lemma CaptureIsComplete(snapshot: Snapshot, content: Line)
    requires Captures(snapshot, content) && content != []
    ensures !snapshot.truncated <==> snapshot.lines == CaptureLines(content)
    ensures !snapshot.truncated ==>
              content == Join(snapshot.lines) || content == Join(snapshot.lines) + [NEWLINE]
  {
    SplitThenJoin(TrimNewline(content));
  }

  /** What is kept is at most 100000 lines and 32 MiB, and one line more would be too much. */
  lemma CaptureIsBounded(snapshot: Snapshot, content: Line)
    requires Captures(snapshot, content)
    ensures
      var source := CaptureLines(content);
      var start := |source| - |snapshot.lines|;
      && start >= 0 && snapshot.lines == source[start..]
      && |snapshot.lines| <= 100_000 && |Join(snapshot.lines)| <= 32 * 1024 * 1024
      && (snapshot.truncated <==> start > 0)
      && (start > 0 ==> |snapshot.lines| + 1 > 100_000 || |Join(source[start - 1..])| > 32 * 1024 * 1024)
  {
    var source := CaptureLines(content);
    var start := |source| - |snapshot.lines|;
    JoinedLengthIsLengthOfJoin(snapshot.lines);
    if start > 0 {
      JoinedLengthIsLengthOfJoin(source[start - 1..]);
      assert !WithinLimits(source, start - 1, MAX_SNAPSHOT_ROWS, MAX_SNAPSHOT_BYTES);
    }
  }

  /** The outcome of asking for the lines before `before`, once expired captures are gone. */
  function Lookup(entries: map<string, Snapshot>, id: string, sessionId: string, paneId: string, stripAnsi: bool,
                  before: int): Option<SnapshotError>
  {
    if id !in entries || entries[id].sessionId != sessionId || entries[id].paneId != paneId
       || entries[id].stripAnsi != stripAnsi
    then Some(Expired)
    else if before < 0 || before > |entries[id].lines| then Some(BeforeLineOutOfRange)
    else None
  }

  /** The reply describes the lines of the capture up to `before`: where they start, their text, and the rest. */
  predicate Answers(r: Reply, id: string, snapshot: Snapshot, before: int) {
    && SatisfiesSchema(r) && r.snapshotId == id
    && r.totalLines == |snapshot.lines| && r.sourceTotalLines == snapshot.sourceTotalLines
    && r.truncated == snapshot.truncated && (r.hasOlder <==> r.rangeStart > 0)
    && r.nextBefore == (if r.rangeStart > 0 then Some(r.rangeStart) else None)
    && 0 <= r.rangeStart <= r.rangeEnd == before <= |snapshot.lines|
    && r.content == Join(snapshot.lines[r.rangeStart..before])
    && |JsonText.Encode(r.content)| + 2 <= 512 * 1024
  }

  lemma PageAnswers(id: string, snapshot: Snapshot, before: nat, pageSize: int)
    requires before <= |snapshot.lines| <= snapshot.sourceTotalLines && 1 <= pageSize <= MAX_PAGE_LINES
    ensures
      var page := MakePage(snapshot.lines, before, pageSize);
      && (page.Err? <==> before > 0 && EncodedSize(snapshot.lines, before - 1, before) > 512 * 1024)
      && (page.Ok? ==>
            && Answers(ReplyFor(id, snapshot, page.value), id, snapshot, before)
            && IsPage(snapshot.lines, page.value.start, before, pageSize))
  {
    PageIsBounded(snapshot.lines, before, pageSize);
    if MakePage(snapshot.lines, before, pageSize).Ok? {
      FirstPageOk(snapshot.lines, before, pageSize);
      RepliesSatisfySchema(id, snapshot, before, pageSize);
    }
  }

  /** The cache, and for the record the lines of every capture it ever made, by id. */
  class Cache {
    var entries: map<string, Snapshot>
    ghost var captured: map<string, seq<Line>>

    ghost predicate EntryOk(id: string)
      reads this
    {
      id in entries ==>
        && id in captured && entries[id].lines == captured[id]
        && |entries[id].lines| <= entries[id].sourceTotalLines
    }

    ghost predicate Valid()
      reads this
    {
      |entries| <= MAX_SNAPSHOTS && forall id {:trigger EntryOk(id)} :: EntryOk(id)
    }

    constructor ()
      ensures Valid() && entries == map[] && captured == map[]
    {
      entries, captured := map[], map[];
    }

    /** Forgets what nobody has used for an hour. */
    method Prune(now: int)
      requires Valid()
      modifies this`entries
      ensures Valid() && entries == PruneExpired(old(entries), now)
      ensures forall id :: id in entries <==> id in old(entries) && now - old(entries)[id].lastAccess < 3600
      ensures forall id :: id in entries ==> entries[id] == old(entries)[id]
    {
      var before := entries;
      var rest := entries.Keys;
      while rest != {}
        invariant rest <= before.Keys
        invariant entries ==
                  map k | k in before && (k in rest || now - before[k].lastAccess < IDLE_TTL_SECONDS) :: before[k]
      {
        var id :| id in rest;
        if now - entries[id].lastAccess >= IDLE_TTL_SECONDS {
          entries := entries - {id};
        }
        rest := rest - {id};
      }
      FewerEntries(before, entries);
      forall id ensures EntryOk(id) {
        assert old(EntryOk(id));
      }
    }

    method MakeRoom()
      requires Valid()
      modifies this`entries
      ensures Valid() && |entries| < MAX_SNAPSHOTS && MadeRoom(old(entries), entries)
      ensures forall id :: id in entries ==> id in old(entries) && entries[id] == old(entries)[id]
      decreases |entries|
    {
      if |entries| >= MAX_SNAPSHOTS {
        ghost var before := entries;
        var oldest := FindOldest(entries);
        entries := entries - {oldest};
        forall id ensures EntryOk(id) {
          assert old(EntryOk(id));
        }
        MakeRoom();
        assert IsOldest(before, oldest) && MadeRoom(before - {oldest}, entries);
      }
    }

    /** Adds a capture under a new id, after making room for it. */
    method Store(id: string, snapshot: Snapshot) returns (ghost room: map<string, Snapshot>)
      requires Valid() && id !in captured && |snapshot.lines| <= snapshot.sourceTotalLines
      modifies this
      ensures Valid()
      ensures MadeRoom(old(entries), room) && entries == room[id := snapshot]
      ensures captured == old(captured)[id := snapshot.lines]
    {
      MakeRoom();
      room := entries;
      assert EntryOk(id);
      OneMoreEntry(room, id, snapshot);
      captured := captured[id := snapshot.lines];
      entries := entries[id := snapshot];
      forall k ensures EntryOk(k) {
        assert old(EntryOk(k));
      }
    }

    /** Notes that a capture was used. */
    method Touch(id: string, now: int)
      requires Valid() && id in entries
      modifies this`entries
      ensures Valid() && entries == old(entries)[id := old(entries)[id].(lastAccess := now)]
    {
      ghost var before := entries;
      entries := entries[id := entries[id].(lastAccess := now)];
      FewerEntries(before, entries);
      forall k ensures EntryOk(k) {
        assert old(EntryOk(k));
      }
    }

    /**
     Captures `content` under a new id and answers with its newest page. If not even its last line
     fits into a page nothing is kept.
     */
    method Create(id: string, sessionId: string, paneId: string, stripAnsi: bool, content: Line, pageSize: int,
                  now: int)
      returns (reply: Result<Reply, SnapshotError>, ghost snapshot: Snapshot, ghost room: map<string, Snapshot>)
      requires Valid() && id !in captured && 1 <= pageSize <= MAX_PAGE_LINES
      modifies this
      ensures Valid()
      ensures Captures(snapshot, content) && snapshot.lastAccess == now
      ensures snapshot.sessionId == sessionId && snapshot.paneId == paneId && snapshot.stripAnsi == stripAnsi
      ensures
        var page := MakePage(snapshot.lines, |snapshot.lines|, pageSize);
        if page.Err? then
          reply == Err(PageTooLong) && entries == PruneExpired(old(entries), now) && captured == old(captured)
        else
          && reply == Ok(ReplyFor(id, snapshot, page.value)) && SatisfiesSchema(reply.value)
          && MadeRoom(PruneExpired(old(entries), now), room) && entries == room[id := snapshot]
          && captured == old(captured)[id := snapshot.lines]
      ensures reply.Err? <==>
                snapshot.lines != [] && EncodedSize(snapshot.lines, |snapshot.lines| - 1, |snapshot.lines|) > 512 * 1024
      ensures reply.Ok? ==> Answers(reply.value, id, snapshot, |snapshot.lines|) && |entries| <= 2
    {
      room := map[];
      Prune(now);
      var taken := TakeSnapshot(sessionId, paneId, stripAnsi, content, now);
      snapshot := taken;
      var page := BuildPage(taken.lines, |taken.lines|, pageSize);
      PageAnswers(id, taken, |taken.lines|, pageSize);
      if page.Err? {
        return Err(PageTooLong), snapshot, room;
      }
      room := Store(id, taken);
      return Ok(ReplyFor(id, taken, page.value)), snapshot, room;
    }

    /**
     Answers with the page before line `before` of a capture made earlier: a slice of the lines it had
     then, whatever has happened to the cache since.
     */
    method Continue(id: string, sessionId: string, paneId: string, stripAnsi: bool, before: int, pageSize: int,
                    now: int)
      returns (reply: Result<Reply, SnapshotError>)
      requires Valid() && 1 <= pageSize <= MAX_PAGE_LINES
      modifies this`entries
      ensures Valid()
      ensures
        var pruned := PruneExpired(old(entries), now);
        var failure := Lookup(pruned, id, sessionId, paneId, stripAnsi, before);
        if failure.Some? then reply == Err(failure.value) && entries == pruned
        else
          && id in captured && before <= |captured[id]|
          && entries == pruned[id := pruned[id].(lastAccess := now)]
          && var page := MakePage(captured[id], before, pageSize);
             reply == if page.Err? then Err(PageTooLong) else Ok(ReplyFor(id, pruned[id], page.value))
      ensures reply.Ok? ==>
                && id in old(entries) && Answers(reply.value, id, old(entries)[id], before)
                && id in captured && captured[id] == old(entries)[id].lines
                && IsPage(captured[id], reply.value.rangeStart, before, pageSize)
      ensures
        var isThere := id in old(entries) && now - old(entries)[id].lastAccess < 3600
                       && old(entries)[id].sessionId == sessionId && old(entries)[id].paneId == paneId
                       && old(entries)[id].stripAnsi == stripAnsi;
        && (reply == Err(Expired) <==> !isThere)
        && (reply == Err(BeforeLineOutOfRange) <==> isThere && !(0 <= before <= |old(entries)[id].lines|))
        && (reply == Err(PageTooLong) <==>
              && isThere && 0 < before <= |old(entries)[id].lines|
              && EncodedSize(old(entries)[id].lines, before - 1, before) > 512 * 1024)
        && (isThere && 0 <= before <= |old(entries)[id].lines| ==> id in entries && entries[id].lastAccess == now)
    {
      Prune(now);
      assert EntryOk(id);
      if id !in entries || entries[id].sessionId != sessionId || entries[id].paneId != paneId
         || entries[id].stripAnsi != stripAnsi {
        return Err(Expired);
      }
      var snapshot := entries[id];
      if before < 0 || before > |snapshot.lines| {
        return Err(BeforeLineOutOfRange);
      }
      Touch(id, now);
      var page := BuildPage(snapshot.lines, before, pageSize);
      PageAnswers(id, snapshot, before, pageSize);
      if page.Err? {
        return Err(PageTooLong);
      }
      return Ok(ReplyFor(id, snapshot, page.value));
    }
  }

  method TakeSnapshot(sessionId: string, paneId: string, stripAnsi: bool, content: Line, now: int)
    returns (snapshot: Snapshot)
    ensures Captures(snapshot, content) && snapshot.lastAccess == now
    ensures snapshot.sessionId == sessionId && snapshot.paneId == paneId && snapshot.stripAnsi == stripAnsi
    ensures |snapshot.lines| <= snapshot.sourceTotalLines
  {
    var source := CaptureLines(content);
    var lines := RetainNewestLines(source, MAX_SNAPSHOT_ROWS, MAX_SNAPSHOT_BYTES);
    snapshot := Snapshot(sessionId, paneId, stripAnsi, lines, |source|, |lines| != |source|, now);
  }

  lemma FewerEntries(before: map<string, Snapshot>, after: map<string, Snapshot>)
    requires after.Keys <= before.Keys
    ensures |after| <= |before|
  {
    FewerKeys(after.Keys, before.Keys);
    assert |after| == |after.Keys| && |before| == |before.Keys|;
  }

  lemma {:induction false} FewerKeys(a: set<string>, b: set<string>)
    requires a <= b
    ensures |a| <= |b|
  {
    if a != {} {
      var x :| x in a;
      FewerKeys(a - {x}, b - {x});
    }
  }

  lemma OneMoreEntry(entries: map<string, Snapshot>, id: string, snapshot: Snapshot)
    requires id !in entries
    ensures |entries[id := snapshot]| == |entries| + 1
  {
    assert entries[id := snapshot].Keys == entries.Keys + {id};
    assert |entries[id := snapshot]| == |entries[id := snapshot].Keys| && |entries| == |entries.Keys|;
  }
}
