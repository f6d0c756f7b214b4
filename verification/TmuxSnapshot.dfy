/**
 Building the topology snapshot: panes are filed under their sessions and windows as they are listed,
 and everything is sorted at the end.
 */
module TmuxSnapshot {
  import opened Options
  import opened TmuxTopology
  import Ordering

  type WindowKey = (string, int)

  // ---------------------------------------------------------------------------------------------
  // Filing one more pane
  // ---------------------------------------------------------------------------------------------

  lemma FactsGrow(list: seq<ListedPane>, p: ListedPane, name: string, w: int)
    ensures HasSession(list + [p], name) <==> HasSession(list, name) || p.session == name
    ensures HasWindow(list + [p], name, w) <==> HasWindow(list, name, w) || In(p, name, w)
    ensures IsAttached(list + [p], name) <==> IsAttached(list, name) || (p.session == name && p.attached)
    ensures Clients(list + [p], name)
         == if p.session == name && p.clients > Clients(list, name) then p.clients else Clients(list, name)
    ensures PanesOf(list + [p], name, w) == PanesOf(list, name, w) + (if In(p, name, w) then [p.pane] else [])
    ensures HasWindow(list, name, w) ==> Info(list + [p], name, w) == Info(list, name, w)
    ensures !HasWindow(list, name, w) && In(p, name, w) ==>
              Info(list + [p], name, w) == p.window && PanesOf(list, name, w) == []
  {
    var longer := list + [p];
    assert longer[..|list|] == list && longer[|list|] == p;
    assert forall i: nat :: i < |list| ==> longer[i] == list[i];
    HasWindowSplits(longer, name, w);
    if i: nat :| i < |longer| && longer[i].session == name {
      assert i == |list| || list[i].session == name;
    }
    if i: nat :| i < |list| && list[i].session == name {
      assert longer[i].session == name;
    }
    if i: nat :| i < |list| && list[i].session == name && list[i].attached {
      assert longer[i].session == name && longer[i].attached;
    }
    if !HasWindow(list, name, w) {
      NoPanes(list, name, w);
    }
  }

  lemma {:induction false} NoPanes(list: seq<ListedPane>, name: string, w: int)
    requires !HasWindow(list, name, w)
    ensures PanesOf(list, name, w) == []
  {
    if list != [] {
      HasWindowSplits(list, name, w);
      NoPanes(list[..|list| - 1], name, w);
    }
  }

  /** A window while panes are being filed: its panes stand in the order of the list. */
  ghost predicate FiledWindow(list: seq<ListedPane>, name: string, w: Window) {
    && HasWindow(list, name, w.info.index)
    && w.info == Info(list, name, w.info.index)
    && w.panes == PanesOf(list, name, w.info.index)
  }

  /** The key map knows where each window of a session is. */
  ghost predicate KeyOk(list: seq<ListedPane>, name: string, ws: seq<Window>, keys: map<WindowKey, nat>, w: int) {
    if HasWindow(list, name, w)
    then (name, w) in keys && keys[(name, w)] < |ws| && ws[keys[(name, w)]].info.index == w
    else (name, w) !in keys
  }

  ghost predicate FiledSession(list: seq<ListedPane>, s: Session, keys: map<WindowKey, nat>) {
    && s.attached == IsAttached(list, s.name) && s.clients == Clients(list, s.name)
    && (forall i: nat {:trigger s.windows[i]} :: i < |s.windows| ==> FiledWindow(list, s.name, s.windows[i]))
    && (forall i: nat {:trigger s.windows[i]} :: i < |s.windows| ==>
          (s.name, s.windows[i].info.index) in keys && keys[(s.name, s.windows[i].info.index)] == i)
    && (forall w {:trigger KeyOk(list, s.name, s.windows, keys, w)} :: KeyOk(list, s.name, s.windows, keys, w))
  }

  ghost predicate Filed(list: seq<ListedPane>, sessions: map<string, Session>, keys: map<WindowKey, nat>, name: string)
  {
    if HasSession(list, name)
    then name in sessions && sessions[name].name == name && FiledSession(list, sessions[name], keys)
    else name !in sessions && forall w :: (name, w) !in keys
  }

  ghost predicate AllFiled(list: seq<ListedPane>, sessions: map<string, Session>, keys: map<WindowKey, nat>) {
    forall name {:trigger Filed(list, sessions, keys, name)} :: Filed(list, sessions, keys, name)
  }

  /** The window at `at`, or a new one at the end, gets the pane. */
  function AddPane(ws: seq<Window>, at: Option<nat>, p: ListedPane): seq<Window>
    requires at.Some? ==> at.value < |ws|
  {
    match at
    case None => ws + [Window(p.window, [p.pane])]
    case Some(i) => ws[i := ws[i].(panes := ws[i].panes + [p.pane])]
  }

  function AddToSession(s: Session, at: Option<nat>, p: ListedPane): Session
    requires at.Some? ==> at.value < |s.windows|
  {
    s.(attached := s.attached || p.attached,
       clients := if p.clients > s.clients then p.clients else s.clients,
       windows := AddPane(s.windows, at, p))
  }

  function Find(keys: map<WindowKey, nat>, p: ListedPane): Option<nat> {
    if (p.session, p.window.index) in keys then Some(keys[(p.session, p.window.index)]) else None
  }

  /** The key map after the pane was filed. */
  function AddKey(keys: map<WindowKey, nat>, p: ListedPane, count: nat): map<WindowKey, nat> {
    if (p.session, p.window.index) in keys then keys else keys[(p.session, p.window.index) := count]
  }

  lemma FindIsRight(list: seq<ListedPane>, s: Session, keys: map<WindowKey, nat>, p: ListedPane)
    requires FiledSession(list, s, keys) && p.session == s.name
    ensures Find(keys, p).Some? <==> HasWindow(list, p.session, p.window.index)
    ensures Find(keys, p).Some? ==>
              Find(keys, p).value < |s.windows| && s.windows[Find(keys, p).value].info.index == p.window.index
  {
    assert KeyOk(list, s.name, s.windows, keys, p.window.index);
  }

  lemma AddKeepsWindow(list: seq<ListedPane>, s: Session, keys: map<WindowKey, nat>, p: ListedPane, i: nat)
    requires FiledSession(list, s, keys) && p.session == s.name
    requires Find(keys, p).Some? ==> Find(keys, p).value < |s.windows|
    requires i < |AddPane(s.windows, Find(keys, p), p)|
    ensures FiledWindow(list + [p], s.name, AddPane(s.windows, Find(keys, p), p)[i])
  {
    FindIsRight(list, s, keys, p);
    var w := AddPane(s.windows, Find(keys, p), p)[i];
    FactsGrow(list, p, s.name, w.info.index);
    if i < |s.windows| {
      assert FiledWindow(list, s.name, s.windows[i]);
      assert keys[(s.name, s.windows[i].info.index)] == i;
    }
  }

  lemma AddKeepsKeys(list: seq<ListedPane>, s: Session, keys: map<WindowKey, nat>, p: ListedPane, w: int)
    requires FiledSession(list, s, keys) && p.session == s.name
    requires Find(keys, p).Some? ==> Find(keys, p).value < |s.windows|
    ensures KeyOk(list + [p], s.name, AddPane(s.windows, Find(keys, p), p), AddKey(keys, p, |s.windows|), w)
  {
    FactsGrow(list, p, s.name, w);
    assert KeyOk(list, s.name, s.windows, keys, w);
  }

  lemma AddKeepsSession(list: seq<ListedPane>, s: Session, keys: map<WindowKey, nat>, p: ListedPane)
    requires FiledSession(list, s, keys) && p.session == s.name
    requires Find(keys, p).Some? ==> Find(keys, p).value < |s.windows|
    ensures FiledSession(list + [p], AddToSession(s, Find(keys, p), p), AddKey(keys, p, |s.windows|))
  {
    var ws := AddPane(s.windows, Find(keys, p), p);
    var keys2 := AddKey(keys, p, |s.windows|);
    FindIsRight(list, s, keys, p);
    FactsGrow(list, p, s.name, p.window.index);
    forall i: nat {:trigger ws[i]} | i < |ws|
      ensures FiledWindow(list + [p], s.name, ws[i])
      ensures (s.name, ws[i].info.index) in keys2 && keys2[(s.name, ws[i].info.index)] == i
    {
      AddKeepsWindow(list, s, keys, p, i);
      if i < |s.windows| {
        assert keys[(s.name, s.windows[i].info.index)] == i;
      }
    }
    forall w ensures KeyOk(list + [p], s.name, ws, keys2, w) {
      AddKeepsKeys(list, s, keys, p, w);
    }
  }

  lemma OtherWindowStays(list: seq<ListedPane>, name: string, p: ListedPane, w: Window)
    requires FiledWindow(list, name, w) && p.session != name
    ensures FiledWindow(list + [p], name, w)
  {
    FactsGrow(list, p, name, w.info.index);
  }

  lemma OtherKeyStays(list: seq<ListedPane>, name: string, ws: seq<Window>, keys: map<WindowKey, nat>, p: ListedPane,
                      count: nat, w: int)
    requires KeyOk(list, name, ws, keys, w) && p.session != name
    ensures KeyOk(list + [p], name, ws, AddKey(keys, p, count), w)
  {
    FactsGrow(list, p, name, w);
  }

  /** A pane says nothing about the sessions it does not belong to. */
  lemma OtherSessionStays(list: seq<ListedPane>, s: Session, keys: map<WindowKey, nat>, p: ListedPane, count: nat)
    requires FiledSession(list, s, keys) && p.session != s.name
    ensures FiledSession(list + [p], s, AddKey(keys, p, count))
  {
    FactsGrow(list, p, s.name, 0);
    forall i: nat {:trigger s.windows[i]} | i < |s.windows| ensures FiledWindow(list + [p], s.name, s.windows[i]) {
      OtherWindowStays(list, s.name, p, s.windows[i]);
    }
    forall w ensures KeyOk(list + [p], s.name, s.windows, AddKey(keys, p, count), w) {
      assert KeyOk(list, s.name, s.windows, keys, w);
      OtherKeyStays(list, s.name, s.windows, keys, p, count, w);
    }
  }

  /** A session before any of its panes was filed. */
  lemma NewSession(list: seq<ListedPane>, sessions: map<string, Session>, keys: map<WindowKey, nat>, name: string)
    requires Filed(list, sessions, keys, name) && name !in sessions
    ensures FiledSession(list, Session(name, false, 0, []), keys)
  {
    NoSession(list, name);
    forall w ensures KeyOk(list, name, [], keys, w) {
      if i: nat :| i < |list| && In(list[i], name, w) {
        assert HasSession(list, name);
      }
    }
  }

  lemma {:induction false} NoSession(list: seq<ListedPane>, name: string)
    requires !HasSession(list, name)
    ensures !IsAttached(list, name) && Clients(list, name) == 0
  {
    if list != [] {
      var before := list[..|list| - 1];
      assert list == before + [Last(list)];
      FactsGrow(before, Last(list), name, 0);
      NoSession(before, name);
    }
  }

  /** Files a pane in its session, under a window that may be new. */
  method FileInSession(session: Session, keys: map<WindowKey, nat>, p: ListedPane)
    returns (filed: Session, keys2: map<WindowKey, nat>)
    requires Find(keys, p).Some? ==> Find(keys, p).value < |session.windows|
    ensures filed == AddToSession(session, Find(keys, p), p) && keys2 == AddKey(keys, p, |session.windows|)
  {
    filed := session.(attached := session.attached || p.attached);
    if p.clients > filed.clients {
      filed := filed.(clients := p.clients);
    }
    var key := (p.session, p.window.index);
    keys2 := keys;
    if key !in keys {
      filed := filed.(windows := filed.windows + [Window(p.window, [])]);
      keys2 := keys2[key := |filed.windows| - 1];
    }
    var at := keys2[key];
    filed := filed.(windows := filed.windows[at := filed.windows[at].(panes := filed.windows[at].panes + [p.pane])]);
    assert key !in keys ==> filed.windows[at].panes == [p.pane];
    assert filed.windows == AddPane(session.windows, Find(keys, p), p);
  }

  /** Files one pane. */
  method FilePane(ghost list: seq<ListedPane>, sessions: map<string, Session>, keys: map<WindowKey, nat>, p: ListedPane)
    returns (sessions2: map<string, Session>, keys2: map<WindowKey, nat>)
    requires AllFiled(list, sessions, keys)
    ensures AllFiled(list + [p], sessions2, keys2)
  {
    assert Filed(list, sessions, keys, p.session);
    var session;
    if p.session in sessions {
      session := sessions[p.session];
    } else {
      session := Session(p.session, false, 0, []);
      NewSession(list, sessions, keys, p.session);
    }
    FindIsRight(list, session, keys, p);
    AddKeepsSession(list, session, keys, p);
    var filed;
    filed, keys2 := FileInSession(session, keys, p);
    sessions2 := sessions[p.session := filed];
    forall name ensures Filed(list + [p], sessions2, keys2, name) {
      assert Filed(list, sessions, keys, name);
      FactsGrow(list, p, name, 0);
      if name != p.session && HasSession(list, name) {
        OtherSessionStays(list, sessions[name], keys, p, |session.windows|);
      }
    }
  }

  // ---------------------------------------------------------------------------------------------
  // Sorting
  // ---------------------------------------------------------------------------------------------

  function InsertPane(p: PaneInfo, ps: seq<PaneInfo>): seq<PaneInfo> {
    if ps == [] || p.index < ps[0].index then [p] + ps else [ps[0]] + InsertPane(p, ps[1..])
  }

  function SortPanes(ps: seq<PaneInfo>): seq<PaneInfo> {
    if ps == [] then [] else InsertPane(ps[0], SortPanes(ps[1..]))
  }

  lemma {:induction false} InsertPaneKeeps(p: PaneInfo, ps: seq<PaneInfo>)
    ensures multiset(InsertPane(p, ps)) == multiset(ps) + multiset{p}
  {
    if ps != [] && p.index >= ps[0].index {
      InsertPaneKeeps(p, ps[1..]);
      assert ps == [ps[0]] + ps[1..];
    }
  }

  ghost predicate AllFrom(ps: seq<PaneInfo>, least: int) {
    forall i: nat :: i < |ps| ==> ps[i].index >= least
  }

  lemma {:induction false} InsertPaneBounds(p: PaneInfo, ps: seq<PaneInfo>, least: int)
    requires AllFrom(ps, least) && p.index >= least
    ensures AllFrom(InsertPane(p, ps), least)
  {
    if ps != [] && p.index >= ps[0].index {
      assert AllFrom(ps[1..], least);
      InsertPaneBounds(p, ps[1..], least);
    }
  }

  lemma {:induction false} InsertPaneSorts(p: PaneInfo, ps: seq<PaneInfo>)
    requires SortedPanes(ps)
    ensures SortedPanes(InsertPane(p, ps))
  {
    if ps != [] && p.index >= ps[0].index {
      assert SortedPanes(ps[1..]) && AllFrom(ps[1..], ps[0].index);
      InsertPaneSorts(p, ps[1..]);
      InsertPaneBounds(p, ps[1..], ps[0].index);
    }
  }

  lemma {:induction false} SortPanesSorts(ps: seq<PaneInfo>)
    ensures SortedPanes(SortPanes(ps)) && multiset(SortPanes(ps)) == multiset(ps)
  {
    if ps != [] {
      SortPanesSorts(ps[1..]);
      InsertPaneSorts(ps[0], SortPanes(ps[1..]));
      InsertPaneKeeps(ps[0], SortPanes(ps[1..]));
      assert ps == [ps[0]] + ps[1..];
    }
  }

  function InsertWindow(w: Window, ws: seq<Window>): seq<Window> {
    if ws == [] || w.info.index < ws[0].info.index then [w] + ws else [ws[0]] + InsertWindow(w, ws[1..])
  }

  function SortWindows(ws: seq<Window>): seq<Window> {
    if ws == [] then [] else InsertWindow(ws[0], SortWindows(ws[1..]))
  }

  lemma {:induction false} InsertWindowSorts(w: Window, ws: seq<Window>)
    requires StrictlySorted(Indices(ws)) && forall i: nat :: i < |ws| ==> ws[i].info.index != w.info.index
    ensures StrictlySorted(Indices(InsertWindow(w, ws)))
    ensures forall x :: x in InsertWindow(w, ws) <==> x == w || x in ws
  {
    if ws == [] {
    } else if w.info.index < ws[0].info.index {
      var r := [w] + ws;
      forall i: nat, j: nat | i < j < |r| ensures Indices(r)[i] < Indices(r)[j] {
        assert j == 1 || Indices(ws)[0] < Indices(ws)[j - 1];
        assert i == 0 || Indices(ws)[i - 1] < Indices(ws)[j - 1];
      }
    } else {
      var rest := ws[1..];
      forall i: nat, j: nat | i < j < |rest| ensures Indices(rest)[i] < Indices(rest)[j] {
        assert Indices(ws)[i + 1] < Indices(ws)[j + 1];
      }
      InsertWindowSorts(w, rest);
      var r := InsertWindow(w, rest);
      assert ws == [ws[0]] + rest;
      forall j: nat | j < |r| ensures ws[0].info.index < r[j].info.index {
        assert r[j] in r;
        if r[j] != w {
          var k: nat :| k < |rest| && rest[k] == r[j];
          assert Indices(ws)[0] < Indices(ws)[k + 1];
        }
      }
      ConsSorted(ws[0], r);
    }
  }

  lemma ConsSorted(w: Window, r: seq<Window>)
    requires StrictlySorted(Indices(r)) && forall j: nat :: j < |r| ==> w.info.index < r[j].info.index
    ensures StrictlySorted(Indices([w] + r))
  {
    forall i: nat, j: nat | i < j < |[w] + r| ensures Indices([w] + r)[i] < Indices([w] + r)[j] {
      assert i == 0 || Indices(r)[i - 1] < Indices(r)[j - 1];
    }
  }

  ghost predicate DistinctWindows(ws: seq<Window>) {
    forall i: nat, j: nat :: i < j < |ws| ==> ws[i].info.index != ws[j].info.index
  }

  lemma {:induction false} SortWindowsSorts(ws: seq<Window>)
    requires DistinctWindows(ws)
    ensures StrictlySorted(Indices(SortWindows(ws))) && forall x :: x in SortWindows(ws) <==> x in ws
  {
    if ws != [] {
      assert DistinctWindows(ws[1..]);
      SortWindowsSorts(ws[1..]);
      var rest := SortWindows(ws[1..]);
      forall i: nat | i < |rest| ensures rest[i].info.index != ws[0].info.index {
        assert rest[i] in rest;
        var k: nat :| k < |ws[1..]| && ws[1..][k] == rest[i];
      }
      InsertWindowSorts(ws[0], rest);
      assert ws == [ws[0]] + ws[1..];
    }
  }

  /** Sorts the panes of every window, one window after the other. */
  method SortAllPanes(ws: seq<Window>) returns (sorted: seq<Window>)
    ensures |sorted| == |ws|
    ensures forall i: nat :: i < |ws| ==> sorted[i] == ws[i].(panes := SortPanes(ws[i].panes))
  {
    sorted := ws;
    var i := 0;
    while i < |ws|
      invariant i <= |ws| == |sorted|
      invariant forall j: nat :: j < i ==> sorted[j] == ws[j].(panes := SortPanes(ws[j].panes))
      invariant forall j: nat :: i <= j < |ws| ==> sorted[j] == ws[j]
    {
      sorted := sorted[i := sorted[i].(panes := SortPanes(sorted[i].panes))];
      i := i + 1;
    }
  }

  lemma FiledWindowsAreDistinct(list: seq<ListedPane>, s: Session, keys: map<WindowKey, nat>)
    requires FiledSession(list, s, keys)
    ensures DistinctWindows(s.windows)
  {
    forall i: nat, j: nat | i < j < |s.windows| ensures s.windows[i].info.index != s.windows[j].info.index {
      assert keys[(s.name, s.windows[i].info.index)] == i && keys[(s.name, s.windows[j].info.index)] == j;
    }
  }

  lemma SortedWindowOk(list: seq<ListedPane>, name: string, w: Window)
    requires FiledWindow(list, name, w)
    ensures WindowOk(list, name, w.(panes := SortPanes(w.panes)))
  {
    SortPanesSorts(w.panes);
  }

  /** Sorts one session: windows by index, and the panes of each window. */
  method FinishSession(ghost list: seq<ListedPane>, s: Session, ghost keys: map<WindowKey, nat>) returns (done: Session)
    requires FiledSession(list, s, keys) && HasSession(list, s.name)
    ensures done.name == s.name && SessionOk(list, done)
  {
    FiledWindowsAreDistinct(list, s, keys);
    SortWindowsSorts(s.windows);
    var sorted := SortWindows(s.windows);
    var ws := SortAllPanes(sorted);
    assert Indices(ws) == Indices(sorted);
    forall i: nat {:trigger ws[i]} | i < |ws| ensures WindowOk(list, s.name, ws[i]) {
      assert sorted[i] in sorted && sorted[i] in s.windows;
      var j: nat :| j < |s.windows| && s.windows[j] == sorted[i];
      assert FiledWindow(list, s.name, s.windows[j]);
      SortedWindowOk(list, s.name, sorted[i]);
    }
    forall w {:trigger HasWindow(list, s.name, w)} | HasWindow(list, s.name, w) ensures w in Indices(ws) {
      assert KeyOk(list, s.name, s.windows, keys, w);
      var x := s.windows[keys[(s.name, w)]];
      assert x in s.windows && x in sorted;
      var j: nat :| j < |sorted| && sorted[j] == x;
      assert Indices(sorted)[j] == w;
    }
    done := s.(windows := ws);
  }

  /** The keys of a map in whatever order it yields them. */
  method ListNames(sessions: map<string, Session>) returns (names: seq<string>)
    ensures forall name :: name in names <==> name in sessions
  {
    names := [];
    var rest := sessions.Keys;
    while rest != {}
      invariant rest <= sessions.Keys
      invariant forall name :: name in names <==> name in sessions && name !in rest
    {
      var name :| name in rest;
      names := names + [name];
      rest := rest - {name};
    }
  }

  method FinishAll(ghost list: seq<ListedPane>, sessions: map<string, Session>, ghost keys: map<WindowKey, nat>)
    returns (ss: seq<Session>)
    requires AllFiled(list, sessions, keys)
    ensures Describes(ss, list)
  {
    var names := ListNames(sessions);
    Ordering.SortLists(names);
    names := Ordering.Sort(names);
    ss := [];
    var i := 0;
    while i < |names|
      invariant i <= |names| && |ss| == i
      invariant forall j: nat {:trigger ss[j]} :: j < i ==> ss[j].name == names[j] && SessionOk(list, ss[j])
    {
      assert names[i] in names && Filed(list, sessions, keys, names[i]);
      var done := FinishSession(list, sessions[names[i]], keys);
      ss := ss + [done];
      i := i + 1;
    }
    assert Names(ss) == names;
    forall name {:trigger HasSession(list, name)} | HasSession(list, name) ensures name in Names(ss) {
      assert Filed(list, sessions, keys, name);
    }
  }

  /** The snapshot of the listed panes. */
  method BuildTopology(list: seq<ListedPane>) returns (ss: seq<Session>)
    ensures Describes(ss, list)
  {
    var sessions: map<string, Session> := map[];
    var keys: map<WindowKey, nat> := map[];
    assert list[..0] == [];
    forall name ensures Filed([], sessions, keys, name) {
    }
    var i := 0;
    while i < |list|
      invariant i <= |list| && AllFiled(list[..i], sessions, keys)
    {
      assert list[..i + 1] == list[..i] + [list[i]];
      sessions, keys := FilePane(list[..i], sessions, keys, list[i]);
      i := i + 1;
    }
    assert list[..i] == list;
    ss := FinishAll(list, sessions, keys);
  }
}
