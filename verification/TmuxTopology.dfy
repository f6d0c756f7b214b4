/**
 The snapshot of tmux sessions, windows and panes that is sent to the server. It is a canonical form:
 the order in which tmux lists the panes does not show in it.
 */
module TmuxTopology {
  import Ordering

  datatype WindowInfo = WindowInfo(
    index: int, name: string, active: bool, zoomed: bool, layout: string, bell: bool, activity: bool)

  datatype PaneInfo = PaneInfo(id: string, index: int, active: bool, width: int, height: int, title: string,
                               command: string, path: string)

  /** One line of the pane list: the pane with what tmux says of its session and window. */
  datatype ListedPane = ListedPane(session: string, attached: bool, clients: int, window: WindowInfo, pane: PaneInfo)

  datatype Window = Window(info: WindowInfo, panes: seq<PaneInfo>)

  datatype Session = Session(name: string, attached: bool, clients: int, windows: seq<Window>)

  // ---------------------------------------------------------------------------------------------
  // What the list says
  // ---------------------------------------------------------------------------------------------

  predicate In(p: ListedPane, name: string, w: int) {
    p.session == name && p.window.index == w
  }

  predicate HasSession(list: seq<ListedPane>, name: string) {
    exists i: nat :: i < |list| && list[i].session == name
  }

  predicate HasWindow(list: seq<ListedPane>, name: string, w: int) {
    exists i: nat :: i < |list| && In(list[i], name, w)
  }

  predicate IsAttached(list: seq<ListedPane>, name: string) {
    exists i: nat :: i < |list| && list[i].session == name && list[i].attached
  }

  function Last(list: seq<ListedPane>): ListedPane
    requires list != []
  {
    list[|list| - 1]
  }

  /** The most clients that any pane of the session reports, and at least none. */
  function Clients(list: seq<ListedPane>, name: string): int {
    if list == [] then 0
    else
      var before := Clients(list[..|list| - 1], name);
      if Last(list).session == name && Last(list).clients > before then Last(list).clients else before
  }

  /** What the first listed pane of a window says about it. */
  function Info(list: seq<ListedPane>, name: string, w: int): WindowInfo
    requires HasWindow(list, name, w)
  {
    if HasWindow(list[..|list| - 1], name, w) then Info(list[..|list| - 1], name, w) else Last(list).window
  }

  /** The panes of a window in the order of the list. */
  function PanesOf(list: seq<ListedPane>, name: string, w: int): seq<PaneInfo> {
    if list == [] then []
    else
      var before := PanesOf(list[..|list| - 1], name, w);
      if In(Last(list), name, w) then before + [Last(list).pane] else before
  }

  // ---------------------------------------------------------------------------------------------
  // What the snapshot must be
  // ---------------------------------------------------------------------------------------------

  ghost predicate StrictlySorted(s: seq<int>) {
    forall i: nat, j: nat :: i < j < |s| ==> s[i] < s[j]
  }

  ghost predicate SortedPanes(ps: seq<PaneInfo>) {
    forall i: nat, j: nat :: i < j < |ps| ==> ps[i].index <= ps[j].index
  }

  function Names(ss: seq<Session>): seq<string> {
    seq(|ss|, i requires 0 <= i < |ss| => ss[i].name)
  }

  function Indices(ws: seq<Window>): seq<int> {
    seq(|ws|, i requires 0 <= i < |ws| => ws[i].info.index)
  }

  ghost predicate WindowOk(list: seq<ListedPane>, name: string, w: Window) {
    && HasWindow(list, name, w.info.index)
    && w.info == Info(list, name, w.info.index)
    && SortedPanes(w.panes) && multiset(w.panes) == multiset(PanesOf(list, name, w.info.index))
  }

  ghost predicate WindowsOk(list: seq<ListedPane>, name: string, ws: seq<Window>) {
    && StrictlySorted(Indices(ws))
    && (forall i: nat {:trigger ws[i]} :: i < |ws| ==> WindowOk(list, name, ws[i]))
    && (forall w {:trigger HasWindow(list, name, w)} :: HasWindow(list, name, w) ==> w in Indices(ws))
  }

  ghost predicate SessionOk(list: seq<ListedPane>, s: Session) {
    && HasSession(list, s.name)
    && s.attached == IsAttached(list, s.name) && s.clients == Clients(list, s.name)
    && WindowsOk(list, s.name, s.windows)
  }

  /** Sessions by name, windows by index, panes by index, and all of them just once. */
  ghost predicate Describes(ss: seq<Session>, list: seq<ListedPane>) {
    && Ordering.Sorted(Names(ss))
    && (forall i: nat {:trigger ss[i]} :: i < |ss| ==> SessionOk(list, ss[i]))
    && (forall name {:trigger HasSession(list, name)} :: HasSession(list, name) ==> name in Names(ss))
  }

  // ---------------------------------------------------------------------------------------------
  // Only one snapshot describes a set of panes
  // ---------------------------------------------------------------------------------------------

  /** tmux says the same about a window on each of its panes. */
  ghost predicate AgreeingWindows(list: seq<ListedPane>) {
    forall p, q {:trigger p in list, q in list} :: p in list && q in list && SameWindow(p, q) ==> p.window == q.window
  }

  /** tmux numbers the panes of one window differently. */
  ghost predicate DistinctPanes(list: seq<ListedPane>) {
    forall i: nat, j: nat {:trigger list[i], list[j]} ::
      i < j < |list| && SameWindow(list[i], list[j]) ==> list[i].pane.index != list[j].pane.index
  }

  ghost predicate Consistent(list: seq<ListedPane>) {
    AgreeingWindows(list) && DistinctPanes(list)
  }

  predicate SameWindow(p: ListedPane, q: ListedPane) {
    p.session == q.session && p.window.index == q.window.index
  }

  /** The same panes in another order. */
  ghost predicate Reordered(a: seq<ListedPane>, b: seq<ListedPane>) {
    multiset(a) == multiset(b)
  }

  lemma SameMembers(a: seq<ListedPane>, b: seq<ListedPane>)
    requires Reordered(a, b)
    ensures forall p :: p in a <==> p in b
  {
    forall p ensures p in a <==> p in b {
      assert p in multiset(a) <==> p in multiset(b);
    }
  }

  lemma {:induction false} StrictlySortedUnique(a: seq<int>, b: seq<int>)
    requires StrictlySorted(a) && StrictlySorted(b) && forall x :: x in a <==> x in b
    ensures a == b
  {
    if a != [] && b != [] {
      assert a[0] in b && b[0] in a;
      var i: nat :| i < |b| && b[i] == a[0];
      var j: nat :| j < |a| && a[j] == b[0];
      assert a[0] == b[0];
      forall x ensures x in a[1..] <==> x in b[1..] {
        TailMembers(a, x);
        TailMembers(b, x);
      }
      StrictlySortedUnique(a[1..], b[1..]);
      assert a == [a[0]] + a[1..] && b == [b[0]] + b[1..];
    } else {
      HasMember(a);
      HasMember(b);
    }
  }

  lemma HasMember(a: seq<int>)
    ensures a == [] || exists x: int :: x in a
  {
    if a != [] {
      var x := a[0];
      assert x in a;
    }
  }

  lemma TailMembers(a: seq<int>, x: int)
    requires StrictlySorted(a) && a != []
    ensures x in a[1..] <==> x in a && x != a[0]
  {
    if x in a && x != a[0] {
      var i: nat :| i < |a| && a[i] == x;
      assert a[1..][i - 1] == x;
    }
    if x in a[1..] {
      var i: nat :| i < |a[1..]| && a[1..][i] == x;
      assert a[i + 1] == x;
    }
  }

  lemma {:induction false} ClientsAreGreatest(list: seq<ListedPane>, name: string)
    ensures Clients(list, name) >= 0
    ensures forall p :: p in list && p.session == name ==> p.clients <= Clients(list, name)
    ensures Clients(list, name) == 0 || exists p :: p in list && p.session == name && p.clients == Clients(list, name)
  {
    if list != [] {
      var before := list[..|list| - 1];
      ClientsAreGreatest(before, name);
      assert list == before + [Last(list)];
      assert Last(list) in list;
    }
  }

  lemma HasWindowSplits(list: seq<ListedPane>, name: string, w: int)
    requires list != []
    ensures HasWindow(list, name, w) <==> HasWindow(list[..|list| - 1], name, w) || In(Last(list), name, w)
  {
    var before := list[..|list| - 1];
    if i: nat :| i < |before| && In(before[i], name, w) {
      assert list[i] == before[i];
    }
    if i: nat :| i < |list| && In(list[i], name, w) {
      assert i == |before| || In(before[i], name, w);
    }
  }

  lemma {:induction false} InfoIsListed(list: seq<ListedPane>, name: string, w: int)
    requires HasWindow(list, name, w)
    ensures exists p :: p in list && In(p, name, w) && p.window == Info(list, name, w)
  {
    var before := list[..|list| - 1];
    assert list == before + [Last(list)];
    if HasWindow(before, name, w) {
      InfoIsListed(before, name, w);
    } else {
      HasWindowSplits(list, name, w);
      assert Last(list) in list;
    }
  }

  lemma {:induction false} PanesAreListed(list: seq<ListedPane>, name: string, w: int, x: PaneInfo)
    ensures x in PanesOf(list, name, w) <==> exists p :: p in list && In(p, name, w) && p.pane == x
  {
    if list != [] {
      var before := list[..|list| - 1];
      PanesAreListed(before, name, w, x);
      assert list == before + [Last(list)];
      assert Last(list) in list;
    }
  }

  // The panes of a window do not depend on the order of the list

  lemma {:induction false} PanesOfConcat(a: seq<ListedPane>, b: seq<ListedPane>, name: string, w: int)
    ensures PanesOf(a + b, name, w) == PanesOf(a, name, w) + PanesOf(b, name, w)
  {
    if b == [] {
      assert a + b == a;
    } else {
      PanesOfConcat(a, b[..|b| - 1], name, w);
      assert (a + b)[..|a + b| - 1] == a + b[..|b| - 1];
    }
  }

  lemma TakeFromBoth(front: seq<ListedPane>, last: ListedPane, x: seq<ListedPane>, y: seq<ListedPane>,
                     a: seq<ListedPane>, b: seq<ListedPane>)
    requires a == front + [last] && x + [last] + y == b && Reordered(a, b)
    ensures Reordered(front, x + y)
  {
    assert multiset(a) == multiset(front) + multiset{last};
    assert multiset(b) == multiset(x) + multiset{last} + multiset(y);
    assert multiset(front) == multiset(a) - multiset{last} == multiset(x) + multiset(y);
  }

  lemma PanesOfMiddle(x: seq<ListedPane>, p: ListedPane, y: seq<ListedPane>, name: string, w: int)
    ensures multiset(PanesOf(x + [p] + y, name, w))
         == multiset(PanesOf(x + y, name, w)) + (if In(p, name, w) then multiset{p.pane} else multiset{})
  {
    PanesOfConcat(x, y, name, w);
    PanesOfConcat(x + [p], y, name, w);
    PanesOfConcat(x, [p], name, w);
    assert [p][..0] == [];
    assert PanesOf([p], name, w) == if In(p, name, w) then [p.pane] else [];
  }

  lemma {:induction false} PanesOfReordered(a: seq<ListedPane>, b: seq<ListedPane>, name: string, w: int)
    requires Reordered(a, b)
    ensures multiset(PanesOf(a, name, w)) == multiset(PanesOf(b, name, w))
  {
    if a == [] {
      assert |multiset(a)| == |a| && |multiset(b)| == |b|;
    } else {
      var front, last := a[..|a| - 1], Last(a);
      assert a == front + [last];
      assert last in multiset(b);
      var k: nat :| k < |b| && b[k] == last;
      var x, y := b[..k], b[k + 1..];
      TakeFromBoth(front, last, x, y, a, b);
      PanesOfReordered(front, x + y, name, w);
      PanesOfMiddle(x, last, y, name, w);
      PanesOfMiddle(front, last, [], name, w);
      assert front + [last] + [] == a && front + [] == front;
    }
  }

  ghost predicate DistinctIndices(ps: seq<PaneInfo>) {
    forall i: nat, j: nat {:trigger ps[i], ps[j]} :: i < j < |ps| ==> ps[i].index != ps[j].index
  }

  lemma {:induction false} PanesAreDistinct(list: seq<ListedPane>, name: string, w: int)
    requires DistinctPanes(list)
    ensures DistinctIndices(PanesOf(list, name, w))
  {
    if list != [] {
      var before := list[..|list| - 1];
      assert list == before + [Last(list)];
      PanesAreDistinct(before, name, w);
      if In(Last(list), name, w) {
        var ps := PanesOf(before, name, w);
        forall i: nat | i < |ps| ensures ps[i].index != Last(list).pane.index {
          PanesAreListed(before, name, w, ps[i]);
          assert ps[i] in ps;
          var p :| p in before && In(p, name, w) && p.pane == ps[i];
          var k: nat :| k < |before| && before[k] == p;
          assert list[k] == p && list[|before|] == Last(list) && SameWindow(list[k], list[|before|]);
        }
      }
    }
  }

  lemma {:induction false} TwoPositions(x: seq<PaneInfo>, e: PaneInfo)
    requires multiset(x)[e] >= 2
    ensures exists p: nat, q: nat :: p < q < |x| && x[p] == e && x[q] == e
  {
    var front := x[..|x| - 1];
    assert x == front + [x[|x| - 1]];
    if x[|x| - 1] == e {
      assert e in multiset(front);
      var p: nat :| p < |front| && front[p] == e;
      assert x[p] == e && x[|x| - 1] == e;
    } else {
      TwoPositions(front, e);
      var p: nat, q: nat :| p < q < |front| && front[p] == e && front[q] == e;
      assert x[p] == e && x[q] == e;
    }
  }

  lemma DistinctOnce(x: seq<PaneInfo>, e: PaneInfo)
    requires DistinctIndices(x)
    ensures multiset(x)[e] <= 1
  {
    if multiset(x)[e] >= 2 {
      TwoPositions(x, e);
    }
  }

  lemma TwiceInMultiset(y: seq<PaneInfo>, i: nat, j: nat)
    requires i < j < |y| && y[i] == y[j]
    ensures multiset(y)[y[i]] >= 2
  {
    assert y == y[..i] + [y[i]] + y[i + 1..j] + [y[j]] + y[j + 1..];
  }

  lemma DistinctTransfers(x: seq<PaneInfo>, y: seq<PaneInfo>)
    requires multiset(x) == multiset(y) && DistinctIndices(x)
    ensures DistinctIndices(y)
  {
    forall i: nat, j: nat | i < j < |y| ensures y[i].index != y[j].index {
      if y[i] == y[j] {
        TwiceInMultiset(y, i, j);
        DistinctOnce(x, y[i]);
      } else {
        assert y[i] in multiset(x) && y[j] in multiset(x);
        var p: nat :| p < |x| && x[p] == y[i];
        var q: nat :| q < |x| && x[q] == y[j];
      }
    }
  }

  function PaneIndices(ps: seq<PaneInfo>): seq<int> {
    seq(|ps|, i requires 0 <= i < |ps| => ps[i].index)
  }

  lemma SameIndices(x: seq<PaneInfo>, y: seq<PaneInfo>, n: int)
    requires multiset(x) == multiset(y) && n in PaneIndices(x)
    ensures n in PaneIndices(y)
  {
    var i: nat :| i < |x| && PaneIndices(x)[i] == n;
    assert x[i] in multiset(y);
    var j: nat :| j < |y| && y[j] == x[i];
    assert PaneIndices(y)[j] == n;
  }

  lemma SameIndexSamePane(y: seq<PaneInfo>, i: nat, j: nat)
    requires DistinctIndices(y) && i < |y| && j < |y| && y[i].index == y[j].index
    ensures i == j
  {
  }

  /** Panes with different numbers have only one sorted order. */
  lemma SortedPanesUnique(x: seq<PaneInfo>, y: seq<PaneInfo>)
    requires multiset(x) == multiset(y) && SortedPanes(x) && SortedPanes(y) && DistinctIndices(x)
    ensures x == y
  {
    DistinctTransfers(x, y);
    forall n ensures n in PaneIndices(x) <==> n in PaneIndices(y) {
      if n in PaneIndices(x) {
        SameIndices(x, y, n);
      }
      if n in PaneIndices(y) {
        SameIndices(y, x, n);
      }
    }
    StrictlySortedUnique(PaneIndices(x), PaneIndices(y));
    forall i: nat | i < |x| ensures x[i] == y[i] {
      assert PaneIndices(x)[i] == PaneIndices(y)[i];
      assert x[i] in multiset(y);
      var j: nat :| j < |y| && y[j] == x[i];
      SameIndexSamePane(y, i, j);
    }
    assert |PaneIndices(x)| == |PaneIndices(y)|;
  }

  // Windows and sessions

  lemma SameFacts(a: seq<ListedPane>, b: seq<ListedPane>, name: string, w: int)
    requires Reordered(a, b)
    ensures HasSession(a, name) ==> HasSession(b, name)
    ensures HasWindow(a, name, w) ==> HasWindow(b, name, w)
    ensures IsAttached(a, name) ==> IsAttached(b, name)
  {
    SameMembers(a, b);
    if i: nat :| i < |a| && a[i].session == name {
      assert a[i] in b;
    }
    if i: nat :| i < |a| && In(a[i], name, w) {
      assert a[i] in b;
    }
    if i: nat :| i < |a| && a[i].session == name && a[i].attached {
      assert a[i] in b;
    }
  }

  lemma SameClients(a: seq<ListedPane>, b: seq<ListedPane>, name: string)
    requires Reordered(a, b)
    ensures Clients(a, name) == Clients(b, name)
  {
    SameMembers(a, b);
    ClientsAreGreatest(a, name);
    ClientsAreGreatest(b, name);
  }

  lemma SameInfo(a: seq<ListedPane>, b: seq<ListedPane>, name: string, w: int)
    requires Reordered(a, b) && Consistent(a) && HasWindow(a, name, w) && HasWindow(b, name, w)
    ensures Info(a, name, w) == Info(b, name, w)
  {
    SameMembers(a, b);
    InfoIsListed(a, name, w);
    InfoIsListed(b, name, w);
    var p :| p in a && In(p, name, w) && p.window == Info(a, name, w);
    var q :| q in b && In(q, name, w) && q.window == Info(b, name, w);
    assert SameWindow(p, q);
  }

  lemma SameWindows(a: seq<ListedPane>, b: seq<ListedPane>, name: string, x: Window, y: Window)
    requires Reordered(a, b) && Consistent(a) && WindowOk(a, name, x) && WindowOk(b, name, y)
    requires x.info.index == y.info.index
    ensures x == y
  {
    SameInfo(a, b, name, x.info.index);
    PanesOfReordered(a, b, name, x.info.index);
    PanesAreDistinct(a, name, x.info.index);
    DistinctTransfers(PanesOf(a, name, x.info.index), x.panes);
    SortedPanesUnique(x.panes, y.panes);
  }

  lemma WindowIsListed(list: seq<ListedPane>, name: string, ws: seq<Window>, w: int)
    requires WindowsOk(list, name, ws)
    ensures w in Indices(ws) <==> HasWindow(list, name, w)
  {
    if w in Indices(ws) {
      var i: nat :| i < |ws| && Indices(ws)[i] == w;
      assert WindowOk(list, name, ws[i]);
    }
  }

  lemma SameWindowSeq(a: seq<ListedPane>, b: seq<ListedPane>, name: string, x: seq<Window>, y: seq<Window>)
    requires Reordered(a, b) && Consistent(a) && WindowsOk(a, name, x) && WindowsOk(b, name, y)
    ensures x == y
  {
    forall w ensures w in Indices(x) <==> w in Indices(y) {
      WindowIsListed(a, name, x, w);
      WindowIsListed(b, name, y, w);
      SameFacts(a, b, name, w);
      SameFacts(b, a, name, w);
    }
    StrictlySortedUnique(Indices(x), Indices(y));
    assert |Indices(x)| == |x| && |Indices(y)| == |y|;
    forall i: nat | i < |x| ensures x[i] == y[i] {
      assert Indices(x)[i] == Indices(y)[i];
      SameWindows(a, b, name, x[i], y[i]);
    }
  }

  lemma SameSession(a: seq<ListedPane>, b: seq<ListedPane>, x: Session, y: Session)
    requires Reordered(a, b) && Consistent(a) && SessionOk(a, x) && SessionOk(b, y) && x.name == y.name
    ensures x == y
  {
    SameFacts(a, b, x.name, 0);
    SameFacts(b, a, x.name, 0);
    SameClients(a, b, x.name);
    SameWindowSeq(a, b, x.name, x.windows, y.windows);
  }

  lemma SessionsAreListed(list: seq<ListedPane>, ss: seq<Session>, name: string)
    requires Describes(ss, list)
    ensures name in Names(ss) <==> HasSession(list, name)
  {
    if name in Names(ss) {
      var i: nat :| i < |ss| && Names(ss)[i] == name;
      assert SessionOk(list, ss[i]);
    }
  }

  /** Listing the panes in another order yields the very same snapshot. */
  lemma SnapshotIsCanonical(a: seq<ListedPane>, b: seq<ListedPane>, x: seq<Session>, y: seq<Session>)
    requires Reordered(a, b) && Consistent(a) && Describes(x, a) && Describes(y, b)
    ensures x == y
  {
    forall name ensures name in Names(x) <==> name in Names(y) {
      SessionsAreListed(a, x, name);
      SessionsAreListed(b, y, name);
      SameFacts(a, b, name, 0);
      SameFacts(b, a, name, 0);
    }
    Ordering.ListingIsUnique(Names(x), Names(y), set name | name in Names(x));
    assert |Names(x)| == |x| && |Names(y)| == |y|;
    forall i: nat | i < |x| ensures x[i] == y[i] {
      assert Names(x)[i] == Names(y)[i];
      SameSession(a, b, x[i], y[i]);
    }
  }

  // ---------------------------------------------------------------------------------------------
  // What the snapshot shows, pane by pane
  // ---------------------------------------------------------------------------------------------

  /** `pane` stands in window `w` of session `name`. */
  ghost predicate Shows(ss: seq<Session>, name: string, w: int, pane: PaneInfo) {
    exists a: nat, b: nat {:trigger ss[a].windows[b]} ::
      && a < |ss| && b < |ss[a].windows|
      && ss[a].name == name && ss[a].windows[b].info.index == w && pane in ss[a].windows[b].panes
  }

  /** A pane was listed in window `w` of session `name`. */
  ghost predicate Lists(list: seq<ListedPane>, name: string, w: int, pane: PaneInfo) {
    exists i: nat :: i < |list| && list[i].session == name && list[i].window.index == w && list[i].pane == pane
  }

  lemma WindowPanesAreListed(list: seq<ListedPane>, name: string, w: Window, pane: PaneInfo)
    requires WindowOk(list, name, w)
    ensures pane in w.panes <==> Lists(list, name, w.info.index, pane)
  {
    assert pane in w.panes <==> pane in multiset(PanesOf(list, name, w.info.index));
    PanesAreListed(list, name, w.info.index, pane);
    if p :| p in list && In(p, name, w.info.index) && p.pane == pane {
      var i: nat :| i < |list| && list[i] == p;
      assert Lists(list, name, w.info.index, pane);
    }
    if Lists(list, name, w.info.index, pane) {
      var i: nat :| i < |list| && list[i].session == name && list[i].window.index == w.info.index
                    && list[i].pane == pane;
      assert list[i] in list && In(list[i], name, w.info.index);
    }
  }

  lemma ShownIsListed(ss: seq<Session>, list: seq<ListedPane>, name: string, w: int, pane: PaneInfo)
    requires Describes(ss, list) && Shows(ss, name, w, pane)
    ensures Lists(list, name, w, pane)
  {
    var a: nat, b: nat :| a < |ss| && b < |ss[a].windows| && ss[a].name == name
                          && ss[a].windows[b].info.index == w && pane in ss[a].windows[b].panes;
    assert SessionOk(list, ss[a]) && WindowOk(list, name, ss[a].windows[b]);
    WindowPanesAreListed(list, name, ss[a].windows[b], pane);
  }

  lemma ListedIsShown(ss: seq<Session>, list: seq<ListedPane>, name: string, w: int, pane: PaneInfo)
    requires Describes(ss, list) && Lists(list, name, w, pane)
    ensures Shows(ss, name, w, pane)
  {
    var i: nat :| i < |list| && list[i].session == name && list[i].window.index == w && list[i].pane == pane;
    assert HasSession(list, name) && In(list[i], name, w) && HasWindow(list, name, w);
    var a: nat :| a < |ss| && Names(ss)[a] == name;
    assert SessionOk(list, ss[a]);
    var b: nat :| b < |ss[a].windows| && Indices(ss[a].windows)[b] == w;
    assert WindowOk(list, name, ss[a].windows[b]);
    WindowPanesAreListed(list, name, ss[a].windows[b], pane);
  }

  /** The snapshot shows exactly the listed panes, each in its own window and session. */
  lemma ShowsWhatIsListed(ss: seq<Session>, list: seq<ListedPane>, name: string, w: int, pane: PaneInfo)
    requires Describes(ss, list)
    ensures Shows(ss, name, w, pane) <==> Lists(list, name, w, pane)
  {
    if Shows(ss, name, w, pane) {
      ShownIsListed(ss, list, name, w, pane);
    }
    if Lists(list, name, w, pane) {
      ListedIsShown(ss, list, name, w, pane);
    }
  }

  /**
   A session is attached if one of its panes says so, and has as many clients as the pane that reports the
   most; a window is what one of its panes says it is. Neither is there without a pane.
   */
  lemma SessionIsWhatPanesSay(ss: seq<Session>, list: seq<ListedPane>, a: nat)
    requires Describes(ss, list) && a < |ss|
    ensures ss[a].attached <==> exists i: nat :: i < |list| && list[i].session == ss[a].name && list[i].attached
    ensures ss[a].clients >= 0
    ensures forall i: nat :: i < |list| && list[i].session == ss[a].name ==> list[i].clients <= ss[a].clients
    ensures ss[a].clients == 0
            || exists i: nat :: i < |list| && list[i].session == ss[a].name && list[i].clients == ss[a].clients
    ensures ss[a].windows != []
    ensures forall b: nat :: b < |ss[a].windows| ==>
              exists i: nat :: i < |list| && list[i].session == ss[a].name && list[i].window == ss[a].windows[b].info
  {
    assert SessionOk(list, ss[a]);
    var name := ss[a].name;
    ClientsAreGreatest(list, name);
    if ss[a].clients != 0 {
      var p :| p in list && p.session == name && p.clients == Clients(list, name);
      var i: nat :| i < |list| && list[i] == p;
      assert list[i].clients == ss[a].clients;
    }
    forall b: nat | b < |ss[a].windows|
      ensures exists i: nat :: i < |list| && list[i].session == name && list[i].window == ss[a].windows[b].info
    {
      assert WindowOk(list, name, ss[a].windows[b]);
      InfoIsListed(list, name, ss[a].windows[b].info.index);
      var p :| p in list && In(p, name, ss[a].windows[b].info.index) && p.window == ss[a].windows[b].info;
      var i: nat :| i < |list| && list[i] == p;
      assert list[i].window == ss[a].windows[b].info;
    }
    var i: nat :| i < |list| && list[i].session == name;
    assert In(list[i], name, list[i].window.index) && HasWindow(list, name, list[i].window.index);
    assert list[i].window.index in Indices(ss[a].windows);
  }

  /** Sessions come by name, windows by number, panes by number; no session and no window comes twice. */
  lemma SnapshotIsSorted(ss: seq<Session>, list: seq<ListedPane>, a: nat, b: nat)
    requires Describes(ss, list) && a < |ss| && b < |ss[a].windows|
    ensures forall c: nat :: a < c < |ss| ==> Ordering.Less(ss[a].name, ss[c].name)
    ensures forall c: nat :: b < c < |ss[a].windows| ==> ss[a].windows[b].info.index < ss[a].windows[c].info.index
    ensures
      var panes := ss[a].windows[b].panes;
      forall i: nat, j: nat :: i < j < |panes| ==> panes[i].index <= panes[j].index
  {
    assert SessionOk(list, ss[a]) && WindowOk(list, ss[a].name, ss[a].windows[b]);
    forall c: nat | a < c < |ss| ensures Ordering.Less(ss[a].name, ss[c].name) {
      assert Names(ss)[a] == ss[a].name && Names(ss)[c] == ss[c].name;
    }
    forall c: nat | b < c < |ss[a].windows|
      ensures ss[a].windows[b].info.index < ss[a].windows[c].info.index
    {
      assert Indices(ss[a].windows)[b] < Indices(ss[a].windows)[c];
    }
  }
}
