/**
 Killing a session, alone or with everything below it. The children of every session are collected
 from the parent links, walked in the order of SessionTree.dfy, and killed one by one.
 */
module SessionKill {
  import opened Options
  import opened SessionTree
  import Ordering
  import Text

  datatype Session = Session(paneId: string, parentId: string, status: string, tmuxTarget: string, lastActivity: int)

  /** The sessions whose parent link names `p`; an empty link names nobody. */
  function ChildSet(sessions: map<string, Session>, p: string): set<string> {
    set c | c in sessions && sessions[c].parentId == p && p != ""
  }

  /** `g` lists the children of every session in order. */
  ghost predicate IsChildGraph(g: Graph, sessions: map<string, Session>) {
    forall p {:trigger Children(g, p)} :: Ordering.Lists(Children(g, p), ChildSet(sessions, p))
  }

  /** Only one graph does, whatever order the sessions were looked at in. */
  lemma ChildGraphIsUnique(g: Graph, h: Graph, sessions: map<string, Session>, p: string)
    requires IsChildGraph(g, sessions) && IsChildGraph(h, sessions)
    ensures Children(g, p) == Children(h, p)
  {
    Ordering.ListingIsUnique(Children(g, p), Children(h, p), ChildSet(sessions, p));
  }

  lemma ChildGraphIsClosed(g: Graph, sessions: map<string, Session>)
    requires IsChildGraph(g, sessions)
    ensures Closed(g, sessions.Keys)
  {
    forall x, c {:trigger c in Children(g, x)} | x in sessions.Keys && c in Children(g, x) ensures c in sessions.Keys {
      assert c in ChildSet(sessions, x);
    }
  }

  /** Before sorting: every child is there once, in some order. */
  ghost predicate Collected(children: seq<string>, sessions: map<string, Session>, rest: set<string>, p: string) {
    forall c :: c in children <==> c in ChildSet(sessions, p) && c !in rest
  }

  method CollectChildren(sessions: map<string, Session>) returns (g: Graph)
    ensures IsChildGraph(g, sessions)
  {
    var children: Graph := map[];
    var rest := sessions.Keys;
    while rest != {}
      invariant rest <= sessions.Keys
      invariant forall p {:trigger Children(children, p)} :: Collected(Children(children, p), sessions, rest, p)
    {
      var id :| id in rest;
      ghost var before, left := children, rest;
      var parent := sessions[id].parentId;
      if parent != "" {
        children := children[parent := (if parent in children then children[parent] else []) + [id]];
      }
      rest := rest - {id};
      forall p {:trigger Children(children, p)} ensures Collected(Children(children, p), sessions, rest, p) {
        assert Collected(Children(before, p), sessions, left, p);
      }
    }
    g := SortChildren(children, sessions);
  }

  method SortChildren(children: Graph, ghost sessions: map<string, Session>) returns (g: Graph)
    requires forall p {:trigger Children(children, p)} :: Collected(Children(children, p), sessions, {}, p)
    ensures IsChildGraph(g, sessions)
  {
    g := children;
    var rest := children.Keys;
    while rest != {}
      invariant rest <= children.Keys == g.Keys
      invariant forall p :: p in rest ==> g[p] == children[p]
      invariant forall p :: p in children && p !in rest ==> g[p] == Ordering.Sort(children[p])
    {
      var p :| p in rest;
      g := g[p := Ordering.Sort(g[p])];
      rest := rest - {p};
    }
    forall p {:trigger Children(g, p)} ensures Ordering.Lists(Children(g, p), ChildSet(sessions, p)) {
      assert Collected(Children(children, p), sessions, {}, p);
      Ordering.SortLists(Children(children, p));
      assert (set x | x in Children(children, p)) == ChildSet(sessions, p);
    }
  }

  /** A walk in progress. */
  class Walker {
    const g: Graph
    ghost const sessions: set<string>
    var visited: set<string>
    var ordered: seq<string>

    constructor (g: Graph, ghost sessions: set<string>)
      ensures this.g == g && this.sessions == sessions && visited == {} && ordered == []
    {
      this.g, this.sessions := g, sessions;
      visited, ordered := {}, [];
    }

    ghost function State(): Walk
      reads this
    {
      Walk(visited, ordered)
    }

    /** Visits the children of `x` before it puts `x` out. */
    method Visit(x: string)
      requires Closed(g, sessions) && x in sessions
      modifies this
      ensures State() == SessionTree.Visit(g, sessions, x, old(State()))
      decreases |sessions - visited|
    {
      if x in visited {
        return;
      }
      assert x in sessions - visited && sessions - (visited + {x}) == sessions - visited - {x};
      visited := visited + {x};
      var children := if x in g then g[x] else [];
      assert children == Children(g, x) && forall c :: c in children ==> c in sessions;
      ghost var goal := VisitAll(g, sessions, children, State());
      var i := 0;
      while i < |children|
        invariant i <= |children| && old(visited) + {x} <= visited
        invariant VisitAll(g, sessions, children[i..], State()) == goal
      {
        FewerLeft(sessions, old(visited) + {x}, visited);
        assert children[i..][0] == children[i] && children[i..][1..] == children[i + 1..];
        Visit(children[i]);
        i := i + 1;
      }
      ordered := ordered + [x];
    }
  }

  /** The sessions to kill, in the order to kill them. */
  method KillOrder(sessions: map<string, Session>, root: string, tree: bool)
    returns (ordered: seq<string>, ghost g: Graph)
    requires root in sessions
    ensures IsChildGraph(g, sessions) && Closed(g, sessions.Keys)
    ensures ordered == if tree then Order(g, sessions.Keys, root) else [root]
  {
    var children := CollectChildren(sessions);
    g := children;
    ChildGraphIsClosed(g, sessions);
    if !tree {
      return [root], g;
    }
    var walker := new Walker(children, sessions.Keys);
    walker.Visit(root);
    ordered := walker.ordered;
  }

  /**
   Killing a tree ends on any parent links, cycles included. It takes exactly the root and what lies
   below it, all of them known sessions, each once and the root last, and takes every other session
   before its own parent.
   */
  lemma TreeOrder(g: Graph, sessions: map<string, Session>, root: string)
    requires IsChildGraph(g, sessions) && Closed(g, sessions.Keys) && root in sessions
    ensures
      var ordered := Order(g, sessions.Keys, root);
      && NoDuplicates(ordered) && ordered != [] && ordered[|ordered| - 1] == root
      && (forall y :: y in ordered <==> Reaches(g, root, y))
      && (forall y {:trigger y in ordered} :: y in ordered ==> y in sessions)
      && (forall y {:trigger y in ordered} :: y in ordered && y != root ==> Before(ordered, y, sessions[y].parentId))
      && (forall c {:trigger c in ordered} ::
            c in sessions && sessions[c].parentId != "" && sessions[c].parentId in ordered ==> c in ordered)
  {
    var ordered := Order(g, sessions.Keys, root);
    OrderIsDescendantFirst(g, sessions.Keys, root);
    forall y | y in ordered ensures y in sessions && (y != root ==> Before(ordered, y, sessions[y].parentId)) {
      if y != root {
        var p :| y in Children(g, p) && Before(ordered, y, p);
        assert y in ChildSet(sessions, p);
      }
    }
    forall c | c in sessions && sessions[c].parentId != "" && sessions[c].parentId in ordered ensures c in ordered {
      assert c in ChildSet(sessions, sessions[c].parentId) && c in Children(g, sessions[c].parentId);
      ReachesFurther(g, root, sessions[c].parentId, c);
    }
  }

  // ---------------------------------------------------------------------------------------------
  // Killing and what is told about it
  // ---------------------------------------------------------------------------------------------

  datatype KillError = Forbidden | SessionIdRequired | SessionNotFound

  datatype Killed = Killed(succeeded: seq<string>, failed: seq<string>, updates: seq<string>)

  /** The members of `which`, in their order. */
  function Select(ordered: seq<string>, which: set<string>): seq<string> {
    if ordered == [] then []
    else
      var rest := Select(ordered[..|ordered| - 1], which);
      if ordered[|ordered| - 1] in which then rest + [ordered[|ordered| - 1]] else rest
  }

  lemma {:induction false} SelectMembers(ordered: seq<string>, which: set<string>)
    ensures forall x :: x in Select(ordered, which) <==> x in ordered && x in which
  {
    if ordered != [] {
      SelectMembers(ordered[..|ordered| - 1], which);
      assert ordered == ordered[..|ordered| - 1] + [ordered[|ordered| - 1]];
    }
  }

  lemma {:induction false} SelectIgnores(ordered: seq<string>, which: set<string>, x: string)
    requires x !in ordered
    ensures Select(ordered, which + {x}) == Select(ordered, which)
  {
    if ordered != [] {
      SelectIgnores(ordered[..|ordered| - 1], which, x);
    }
  }

  lemma {:induction false} SelectKeepsDistinct(ordered: seq<string>, which: set<string>)
    requires NoDuplicates(ordered)
    ensures NoDuplicates(Select(ordered, which))
  {
    if ordered != [] {
      var front := ordered[..|ordered| - 1];
      SelectKeepsDistinct(front, which);
      SelectMembers(front, which);
      var last := ordered[|ordered| - 1];
      assert last !in front;
      AppendKeepsDistinct(Select(front, which), last);
    }
  }

  lemma {:induction false} SelectKeepsOrder(ordered: seq<string>, which: set<string>, a: string, b: string)
    requires Before(ordered, a, b) && a in which && b in which
    ensures Before(Select(ordered, which), a, b)
  {
    var n := |ordered| - 1;
    var i: nat, j: nat :| i < j < |ordered| && ordered[i] == a && ordered[j] == b;
    assert ordered[..n][i] == a;
    if j == n {
      SelectMembers(ordered[..n], which);
      BeforeLast(Select(ordered[..n], which), a, b);
    } else {
      assert ordered[..n][j] == b;
      SelectKeepsOrder(ordered[..n], which, a, b);
      if ordered[n] in which {
        BeforeStays(Select(ordered[..n], which), [ordered[n]], a, b);
      }
    }
  }

  lemma AppendKeepsDistinct(ss: seq<string>, x: string)
    requires NoDuplicates(ss) && x !in ss
    ensures NoDuplicates(ss + [x])
  {
  }

  /** The parent of some member of `dead` that is known and not dead itself. */
  ghost predicate BereavedParent(sessions: map<string, Session>, dead: seq<string>, n: nat, p: string) {
    && p in sessions && p != "" && p !in dead
    && exists i: nat :: i < n && i < |dead| && dead[i] in sessions && sessions[dead[i]].parentId == p
  }

  /** The panes that are open, and the commands to kill one that have come in. */
  class Tmux {
    const obeys: bool                  // every pane that is there can be killed
    var panes: set<string>
    var commands: seq<string>

    constructor (panes: set<string>, obeys: bool)
      ensures this.panes == panes && this.obeys == obeys && commands == []
    {
      this.panes, this.obeys, commands := panes, obeys, [];
    }

    method KillPane(pane: string) returns (ok: bool)
      modifies this
      ensures commands == old(commands) + [pane]
      ensures panes == if ok then old(panes) - {pane} else old(panes)
      ensures obeys && pane in old(panes) ==> ok
    {
      ok := *;
      ok := ok || (obeys && pane in panes);
      commands := commands + [pane];
      if ok {
        panes := panes - {pane};
      }
    }
  }

  /** The panes of these sessions, in their order, less those that have none. */
  function PanesOf(known: map<string, Session>, ordered: seq<string>): seq<string> {
    if ordered == [] then []
    else
      var n := |ordered| - 1;
      var rest := PanesOf(known, ordered[..n]);
      if ordered[n] in known && known[ordered[n]].paneId != "" then rest + [known[ordered[n]].paneId] else rest
  }

  /** The pane of some member of `dead`. */
  predicate IsPaneOf(known: map<string, Session>, dead: set<string>, pane: string) {
    pane != "" && exists id :: id in dead && id in known && known[id].paneId == pane
  }

  lemma {:induction false} PanesHold(known: map<string, Session>, ordered: seq<string>, id: string)
    requires id in ordered && id in known && known[id].paneId != ""
    ensures known[id].paneId in PanesOf(known, ordered)
  {
    var n := |ordered| - 1;
    assert ordered == ordered[..n] + [ordered[n]];
    if id != ordered[n] {
      PanesHold(known, ordered[..n], id);
    }
  }

  /** The commands go out in the order of the sessions. */
  lemma {:induction false} PanesKeepOrder(known: map<string, Session>, ordered: seq<string>, a: string, b: string)
    requires Before(ordered, a, b) && a in known && b in known && known[a].paneId != "" && known[b].paneId != ""
    ensures Before(PanesOf(known, ordered), known[a].paneId, known[b].paneId)
  {
    var n := |ordered| - 1;
    var i: nat, j: nat :| i < j < |ordered| && ordered[i] == a && ordered[j] == b;
    assert ordered[..n][i] == a;
    if j == n {
      PanesHold(known, ordered[..n], a);
      BeforeLast(PanesOf(known, ordered[..n]), known[a].paneId, known[b].paneId);
    } else {
      assert ordered[..n][j] == b;
      PanesKeepOrder(known, ordered[..n], a, b);
      if ordered[n] in known && known[ordered[n]].paneId != "" {
        BeforeStays(PanesOf(known, ordered[..n]), [known[ordered[n]].paneId], known[a].paneId, known[b].paneId);
      }
    }
  }

  /** In a tree the pane of a session is killed before that of its parent. */
  lemma ChildrenDieFirst(g: Graph, sessions: map<string, Session>, root: string, y: string)
    requires IsChildGraph(g, sessions) && Closed(g, sessions.Keys) && root in sessions
    requires y != root && Reaches(g, root, y)
    ensures y in sessions && sessions[y].parentId in sessions
    ensures
      var parent := sessions[y].parentId;
      sessions[y].paneId != "" && sessions[parent].paneId != "" ==>
        Before(PanesOf(sessions, Order(g, sessions.Keys, root)), sessions[y].paneId, sessions[parent].paneId)
  {
    var ordered := Order(g, sessions.Keys, root);
    TreeOrder(g, sessions, root);
    assert y in ordered && sessions[y].parentId in ordered;
    if sessions[y].paneId != "" && sessions[sessions[y].parentId].paneId != "" {
      PanesKeepOrder(sessions, ordered, y, sessions[y].parentId);
    }
  }

  class Backend {
    const tmux: Tmux
    var sessions: map<string, Session>
    const allowKill: bool

    constructor (tmux: Tmux, sessions: map<string, Session>, allowKill: bool)
      ensures this.tmux == tmux && this.sessions == sessions && this.allowKill == allowKill
    {
      this.tmux, this.sessions, this.allowKill := tmux, sessions, allowKill;
    }

    /** Kills the pane of one session; a session without one counts as killed. */
    method KillSession(session: Session) returns (killed: bool)
      modifies tmux
      ensures session.paneId == "" ==> killed && tmux.commands == old(tmux.commands) && tmux.panes == old(tmux.panes)
      ensures session.paneId != "" ==>
                && tmux.commands == old(tmux.commands) + [session.paneId]
                && tmux.panes == (if killed then old(tmux.panes) - {session.paneId} else old(tmux.panes))
                && (tmux.obeys ==> session.paneId !in tmux.panes)
    {
      killed := true;
      if session.paneId != "" {
        killed := tmux.KillPane(session.paneId);
      }
    }

    /** Tries each session in turn, as it was when the order was made; one without a pane counts as killed. */
    method KillPanes(known: map<string, Session>, ordered: seq<string>)
      returns (succeeded: seq<string>, failed: seq<string>, ghost dead: set<string>)
      requires NoDuplicates(ordered) && forall id :: id in ordered ==> id in known
      modifies tmux
      ensures succeeded == Select(ordered, dead) && failed == Select(ordered, known.Keys - dead)
      ensures forall id :: id in ordered && known[id].paneId == "" ==> id in dead
      ensures forall id :: id in dead ==> id in ordered
      ensures tmux.commands == old(tmux.commands) + PanesOf(known, ordered)
      ensures forall p :: p in tmux.panes <==> p in old(tmux.panes) && !IsPaneOf(known, dead, p)
      ensures tmux.obeys ==> forall id :: id in ordered && known[id].paneId != "" ==> known[id].paneId !in tmux.panes
    {
      succeeded, failed, dead := [], [], {};
      var i := 0;
      while i < |ordered|
        invariant i <= |ordered| && (forall id :: id in dead ==> id in ordered[..i])
        invariant succeeded == Select(ordered[..i], dead) && failed == Select(ordered[..i], known.Keys - dead)
        invariant forall id :: id in ordered[..i] && known[id].paneId == "" ==> id in dead
        invariant tmux.commands == old(tmux.commands) + PanesOf(known, ordered[..i])
        invariant forall p :: p in tmux.panes <==> p in old(tmux.panes) && !IsPaneOf(known, dead, p)
        invariant tmux.obeys ==>
                    forall id :: id in ordered[..i] && known[id].paneId != "" ==> known[id].paneId !in tmux.panes
      {
        var id := ordered[i];
        var killed := KillSession(known[id]);
        assert ordered[..i + 1][..i] == ordered[..i] && ordered[..i + 1][i] == id;
        assert id !in ordered[..i] && id in ordered;
        if killed {
          SelectIgnores(ordered[..i], dead, id);
          SelectDrops(ordered[..i], known.Keys - dead, id);
          assert known.Keys - (dead + {id}) == known.Keys - dead - {id};
          succeeded := succeeded + [id];
          dead := dead + {id};
        } else {
          assert id !in dead;
          failed := failed + [id];
        }
        i := i + 1;
      }
      assert ordered[..i] == ordered;
    }

    /** The lock on the sessions is not held while panes are killed: anybody may change them. */
    method OthersAct()
      modifies this`sessions
    {
      var anything: map<string, Session> := *;
      sessions := anything;
    }

    lemma {:induction false} SelectDrops(ordered: seq<string>, which: set<string>, x: string)
      requires x !in ordered
      ensures Select(ordered, which - {x}) == Select(ordered, which)
    {
      if ordered != [] {
        SelectDrops(ordered[..|ordered| - 1], which, x);
      }
    }

    /** Marks the killed sessions as done, one after the other, passing over those that have gone. */
    method MarkKilled(dead: seq<string>, now: int)
      modifies this`sessions
      ensures sessions.Keys == old(sessions).Keys
      ensures forall id :: id in sessions ==>
                sessions[id] == if id in dead then Session("", old(sessions)[id].parentId, "DONE", "", now)
                                else old(sessions)[id]
    {
      var i := 0;
      while i < |dead|
        invariant i <= |dead| && sessions.Keys == old(sessions).Keys
        invariant forall id :: id in sessions ==>
                    sessions[id] == if id in dead[..i] then Session("", old(sessions)[id].parentId, "DONE", "", now)
                                    else old(sessions)[id]
      {
        var id := dead[i];
        assert id in dead && dead[..i + 1] == dead[..i] + [id];
        if id in sessions {
          var done := sessions[id].(status := "DONE", paneId := "", tmuxTarget := "", lastActivity := now);
          sessions := sessions[id := done];
        }
        i := i + 1;
      }
      assert dead[..i] == dead;
    }

    /** The killed sessions that are still known. */
    method StillKnown(dead: seq<string>) returns (left: seq<string>)
      ensures left == Select(dead, sessions.Keys)
    {
      left := [];
      var i := 0;
      while i < |dead|
        invariant i <= |dead| && left == Select(dead[..i], sessions.Keys)
      {
        assert dead[..i + 1][..i] == dead[..i] && dead[..i + 1][i] == dead[i];
        if dead[i] in sessions {
          left := left + [dead[i]];
        }
        i := i + 1;
      }
      assert dead[..i] == dead;
    }

    /** Whom the server is told about: the killed sessions, then their other parents, each once. */
    method CollectUpdates(dead: seq<string>) returns (updates: seq<string>)
      requires NoDuplicates(dead) && forall id :: id in dead ==> id in sessions
      ensures NoDuplicates(updates) && dead <= updates
      ensures forall p :: p in updates <==> p in dead || BereavedParent(sessions, dead, |dead|, p)
    {
      updates := dead;
      var i := 0;
      while i < |dead|
        invariant i <= |dead| && NoDuplicates(updates) && dead <= updates
        invariant forall p :: p in updates <==> p in dead || BereavedParent(sessions, dead, i, p)
      {
        var parent := sessions[dead[i]].parentId;
        assert dead[i] in dead;
        ghost var before := updates;
        if parent != "" && parent !in updates && parent in sessions {
          AppendKeepsDistinct(updates, parent);
          updates := updates + [parent];
        }
        forall p ensures p in updates <==> p in dead || BereavedParent(sessions, dead, i + 1, p) {
          assert p in before <==> p in dead || BereavedParent(sessions, dead, i, p);
          if p == parent && p in updates && p !in dead {
            assert sessions[dead[i]].parentId == p;
          }
          if BereavedParent(sessions, dead, i + 1, p) && p !in before {
            var j: nat :| j < i + 1 && j < |dead| && dead[j] in sessions && sessions[dead[j]].parentId == p;
            assert j == i;
          }
        }
        i := i + 1;
      }
    }

    /** Each session in the order is reported once, as killed if it is in `dead` and as failed otherwise. */
    ghost predicate Reported(known: map<string, Session>, ordered: seq<string>, dead: set<string>,
                             succeeded: seq<string>, failed: seq<string>) {
      && succeeded == Select(ordered, dead) && failed == Select(ordered, known.Keys - dead)
      && (forall id :: id in ordered <==> id in succeeded || id in failed)
      && (forall id :: id in succeeded ==> id !in failed)
      && (forall id :: id in ordered && id in known && known[id].paneId == "" ==> id in succeeded)
      && NoDuplicates(succeeded) && NoDuplicates(failed)
    }

    method KillOrdered(known: map<string, Session>, ordered: seq<string>)
      returns (succeeded: seq<string>, failed: seq<string>, ghost dead: set<string>)
      requires NoDuplicates(ordered) && forall id :: id in ordered ==> id in known
      modifies tmux
      ensures Reported(known, ordered, dead, succeeded, failed)
      ensures tmux.commands == old(tmux.commands) + PanesOf(known, ordered)
      ensures forall p :: p in tmux.panes <==> p in old(tmux.panes) && !IsPaneOf(known, dead, p)
      ensures tmux.obeys ==> forall id :: id in ordered && known[id].paneId != "" ==> known[id].paneId !in tmux.panes
    {
      succeeded, failed, dead := KillPanes(known, ordered);
      SelectMembers(ordered, dead);
      SelectMembers(ordered, known.Keys - dead);
      SelectKeepsDistinct(ordered, dead);
      SelectKeepsDistinct(ordered, known.Keys - dead);
    }

    /** The killed sessions that are known are done and have lost pane and target; nothing else is different. */
    ghost predicate Marked(found: map<string, Session>, after: map<string, Session>, killed: seq<string>, now: int) {
      && after.Keys == found.Keys
      && forall id :: id in after ==>
           after[id] == if id in killed then Session("", found[id].parentId, "DONE", "", now) else found[id]
    }

    /** The server is told about the killed sessions that are known, and then about their other parents, once each. */
    ghost predicate Told(after: map<string, Session>, killed: seq<string>, updates: seq<string>) {
      var left := Select(killed, after.Keys);
      && NoDuplicates(updates) && left <= updates
      && forall p :: p in updates <==> p in left || BereavedParent(after, left, |left|, p)
    }

    /** What is recorded and told once the panes are dead; `found` are the sessions as others have left them. */
    method Record(killed: seq<string>, now: int) returns (updates: seq<string>, ghost found: map<string, Session>)
      requires NoDuplicates(killed)
      modifies this`sessions
      ensures Marked(found, sessions, killed, now) && Told(sessions, killed, updates)
    {
      OthersAct();
      found := sessions;
      MarkKilled(killed, now);
      var left := StillKnown(killed);
      SelectMembers(killed, sessions.Keys);
      SelectKeepsDistinct(killed, sessions.Keys);
      updates := CollectUpdates(left);
    }

    /**
     Kills a session, or a tree of them. Each one is reported as killed or as failed. Of the sessions that are
     there when the panes are dead, the killed ones are marked as done, and nobody else changes.
     */
    method Kill(root: string, tree: bool, now: int)
      returns (result: Result<Killed, KillError>, ghost ordered: seq<string>, ghost g: Graph,
               ghost found: map<string, Session>, ghost dead: set<string>)
      modifies this`sessions, tmux
      ensures result == Err(Forbidden) <==> !allowKill
      ensures result == Err(SessionIdRequired) <==> allowKill && Text.IsBlank(root)
      ensures result == Err(SessionNotFound) <==> allowKill && !Text.IsBlank(root) && root !in old(sessions)
      ensures result.Err? ==> sessions == old(sessions) && tmux.commands == old(tmux.commands)
      ensures result.Ok? ==>
                && root in old(sessions) && IsChildGraph(g, old(sessions)) && Closed(g, old(sessions).Keys)
                && ordered == (if tree then Order(g, old(sessions).Keys, root) else [root])
                && Reported(old(sessions), ordered, dead, result.value.succeeded, result.value.failed)
      ensures result.Ok? ==>
                && tmux.commands == old(tmux.commands) + PanesOf(old(sessions), ordered)
                && (forall p :: p in tmux.panes <==> p in old(tmux.panes) && !IsPaneOf(old(sessions), dead, p))
                && (tmux.obeys ==>
                      forall id :: id in ordered && id in old(sessions) && old(sessions)[id].paneId != "" ==>
                        old(sessions)[id].paneId !in tmux.panes)
      ensures result.Ok? ==>
                && Marked(found, sessions, result.value.succeeded, now)
                && Told(sessions, result.value.succeeded, result.value.updates)
    {
      ordered, g, found, dead := [], map[], sessions, {};
      if !allowKill {
        return Err(Forbidden), ordered, g, found, dead;
      }
      if Text.IsBlank(root) {
        return Err(SessionIdRequired), ordered, g, found, dead;
      }
      if root !in sessions {
        return Err(SessionNotFound), ordered, g, found, dead;
      }
      var order;
      order, g := KillOrder(sessions, root, tree);
      ordered := order;
      TreeOrder(g, sessions, root);
      assert order[|order| - 1] in order;
      var succeeded, failed;
      succeeded, failed, dead := KillOrdered(sessions, order);
      var updates;
      updates, found := Record(succeeded, now);
      return Ok(Killed(succeeded, failed, updates)), ordered, g, found, dead;
    }
  }
}
