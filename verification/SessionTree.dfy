/**
 The order in which the sessions of a tree are killed: a depth-first walk that names every session
 after the sessions below it. The walk is the same for the daemon's own parent links and for the
 graphs that a server reports, which may have cycles and several parents for one session.
 */
module SessionTree {
  import Ordering

  type Graph = map<string, seq<string>>

  function Children(g: Graph, x: string): seq<string> {
    if x in g then g[x] else []
  }

  /** A finite set of sessions that no edge leaves. */
  ghost predicate Closed(g: Graph, sessions: set<string>) {
    forall x, c {:trigger c in Children(g, x)} :: x in sessions && c in Children(g, x) ==> c in sessions
  }

  /** What a walk has seen, and what it has put out. */
  datatype Walk = Walk(visited: set<string>, ordered: seq<string>)

  lemma {:induction false} FewerLeft(all: set<string>, a: set<string>, b: set<string>)
    requires a <= b
    ensures |all - b| <= |all - a|
  {
    Fewer(all - b, all - a);
  }

  lemma {:induction false} Fewer(a: set<string>, b: set<string>)
    requires a <= b
    ensures |a| <= |b|
  {
    if a != {} {
      var x :| x in a;
      Fewer(a - {x}, b - {x});
    }
  }

  /** Visits `x` and everything below it that has not been seen. */
  ghost function Visit(g: Graph, sessions: set<string>, x: string, w: Walk): (r: Walk)
    requires Closed(g, sessions) && x in sessions
    ensures w.visited <= r.visited
    decreases |sessions - w.visited|, 0
  {
    if x in w.visited then w
    else
      assert x in sessions - w.visited && sessions - (w.visited + {x}) == sessions - w.visited - {x};
      var r := VisitAll(g, sessions, Children(g, x), Walk(w.visited + {x}, w.ordered));
      Walk(r.visited, r.ordered + [x])
  }

  ghost function VisitAll(g: Graph, sessions: set<string>, xs: seq<string>, w: Walk): (r: Walk)
    requires Closed(g, sessions) && forall x :: x in xs ==> x in sessions
    ensures w.visited <= r.visited
    decreases |sessions - w.visited|, 1 + |xs|
  {
    if xs == [] then w
    else
      var v := Visit(g, sessions, xs[0], w);
      FewerLeft(sessions, w.visited, v.visited);
      VisitAll(g, sessions, xs[1..], v)
  }

  // ---------------------------------------------------------------------------------------------
  // Reachability and order
  // ---------------------------------------------------------------------------------------------

  ghost predicate IsPath(g: Graph, p: seq<string>) {
    p != [] && forall i: nat, j: nat {:trigger p[i], p[j]} :: i + 1 == j < |p| ==> p[j] in Children(g, p[i])
  }

  ghost predicate Reaches(g: Graph, a: string, b: string) {
    exists p :: IsPath(g, p) && p[0] == a && p[|p| - 1] == b
  }

  lemma ReachesItself(g: Graph, a: string)
    ensures Reaches(g, a, a)
  {
    assert IsPath(g, [a]) && [a][0] == a;
  }

  lemma ReachesFurther(g: Graph, a: string, b: string, c: string)
    requires Reaches(g, a, b) && c in Children(g, b)
    ensures Reaches(g, a, c)
  {
    var p :| IsPath(g, p) && p[0] == a && p[|p| - 1] == b;
    assert IsPath(g, p + [c]) && (p + [c])[0] == a && (p + [c])[|p + [c]| - 1] == c;
  }

  lemma {:induction false} ReachesThrough(g: Graph, a: string, b: string, c: string)
    requires Reaches(g, a, b) && Reaches(g, b, c)
    ensures Reaches(g, a, c)
  {
    var p :| IsPath(g, p) && p[0] == a && p[|p| - 1] == b;
    var q :| IsPath(g, q) && q[0] == b && q[|q| - 1] == c;
    var r := p + q[1..];
    forall i: nat, j: nat {:trigger r[i], r[j]} | i + 1 == j < |r| ensures r[j] in Children(g, r[i]) {
      if j < |p| {
        assert r[i] == p[i] && r[j] == p[j];
      } else {
        assert r[j] == q[j - |p| + 1] && r[i] == q[i - |p| + 1];
      }
    }
    assert IsPath(g, r) && r[0] == a && r[|r| - 1] == c;
  }

  /** `a` stands somewhere before `b`. */
  ghost predicate Before(ordered: seq<string>, a: string, b: string) {
    exists i: nat, j: nat {:trigger ordered[i], ordered[j]} :: i < j < |ordered| && ordered[i] == a && ordered[j] == b
  }

  lemma BeforeStays(ordered: seq<string>, more: seq<string>, a: string, b: string)
    requires Before(ordered, a, b)
    ensures Before(ordered + more, a, b)
  {
    var i: nat, j: nat :| i < j < |ordered| && ordered[i] == a && ordered[j] == b;
    assert (ordered + more)[i] == a && (ordered + more)[j] == b;
  }

  lemma BeforeLast(ordered: seq<string>, a: string, b: string)
    requires a in ordered
    ensures Before(ordered + [b], a, b)
  {
    var i: nat :| i < |ordered| && ordered[i] == a;
    assert (ordered + [b])[i] == a && (ordered + [b])[|ordered|] == b;
  }

  ghost predicate NoDuplicates(ordered: seq<string>) {
    forall i: nat, j: nat :: i < j < |ordered| ==> ordered[i] != ordered[j]
  }

  // ---------------------------------------------------------------------------------------------
  // What a walk guarantees
  // ---------------------------------------------------------------------------------------------

  /** Everything put out was seen; nothing was put out twice. */
  ghost predicate WalkOk(w: Walk) {
    NoDuplicates(w.ordered) && forall y :: y in w.ordered ==> y in w.visited
  }

  /** Seen but not put out yet: the sessions whose children are being visited. */
  ghost predicate Open(w: Walk, y: string) {
    y in w.visited && y !in w.ordered
  }

  /** `y` was put out between `w` and `r`. */
  ghost predicate New(w: Walk, r: Walk, y: string) {
    y in r.ordered && y !in w.ordered
  }

  /** The children of `y` were seen, and stand before it unless they lead back to it. */
  ghost predicate ChildrenOk(g: Graph, r: Walk, y: string) {
    forall c {:trigger c in Children(g, y)} :: c in Children(g, y) ==>
      c in r.visited && (Before(r.ordered, c, y) || Reaches(g, c, y))
  }

  /** `y` was found through one of its parents, which is put out later. */
  ghost predicate HasLaterParent(g: Graph, w: Walk, r: Walk, y: string) {
    exists p {:trigger Children(g, p)} :: New(w, r, p) && y in Children(g, p) && Before(r.ordered, y, p)
  }

  /** A walk goes on from `w` to `r` by putting out sessions that `w` had not seen. */
  ghost predicate Extends(w: Walk, r: Walk) {
    && WalkOk(r)
    && w.ordered <= r.ordered && w.visited <= r.visited
    && (forall y {:trigger Open(r, y)} {:trigger Open(w, y)} :: Open(r, y) <==> Open(w, y))
    && (forall y {:trigger New(w, r, y)} :: New(w, r, y) ==> y !in w.visited)
  }

  ghost predicate NewOk(g: Graph, w: Walk, r: Walk, from: set<string>, y: string) {
    New(w, r, y) ==>
      && ChildrenOk(g, r, y)
      && (y in from || HasLaterParent(g, w, r, y))
      && exists x :: x in from && Reaches(g, x, y)
  }

  /** All of it, for a walk that starts with the sessions in `from`. */
  ghost predicate Explores(g: Graph, w: Walk, r: Walk, from: set<string>) {
    && Extends(w, r) && from <= r.visited
    && forall y {:trigger NewOk(g, w, r, from, y)} :: NewOk(g, w, r, from, y)
  }

  /** Every open session leads to all of `xs`. */
  ghost predicate OpenReach(g: Graph, w: Walk, xs: set<string>) {
    forall s, x {:trigger Open(w, s), x in xs} :: Open(w, s) && x in xs ==> Reaches(g, s, x)
  }

  function SetOf(xs: seq<string>): set<string> {
    set x | x in xs
  }

  lemma ChildrenOkStays(g: Graph, v: Walk, r: Walk, y: string)
    requires ChildrenOk(g, v, y) && v.visited <= r.visited && v.ordered <= r.ordered
    ensures ChildrenOk(g, r, y)
  {
    assert r.ordered == v.ordered + r.ordered[|v.ordered|..];
    forall c | c in Children(g, y) ensures Before(r.ordered, c, y) || Reaches(g, c, y) {
      if Before(v.ordered, c, y) {
        BeforeStays(v.ordered, r.ordered[|v.ordered|..], c, y);
      }
    }
  }

  lemma LaterParentStays(g: Graph, w: Walk, w1: Walk, v: Walk, r: Walk, y: string)
    requires HasLaterParent(g, w1, v, y) && w.ordered <= w1.ordered && v.ordered <= r.ordered
    ensures HasLaterParent(g, w, r, y)
  {
    var p :| New(w1, v, p) && y in Children(g, p) && Before(v.ordered, y, p);
    assert r.ordered == v.ordered + r.ordered[|v.ordered|..];
    BeforeStays(v.ordered, r.ordered[|v.ordered|..], y, p);
    assert New(w, r, p);
  }

  /** Exploring some sessions and then others explores both. */
  lemma ExploresCompose(g: Graph, w: Walk, v: Walk, r: Walk, a: set<string>, b: set<string>)
    requires Explores(g, w, v, a) && Explores(g, v, r, b)
    ensures Explores(g, w, r, a + b)
  {
    forall y ensures Open(r, y) <==> Open(w, y) {
      assert Open(r, y) <==> Open(v, y);
    }
    forall y | New(w, r, y) ensures y !in w.visited {
      assert New(w, v, y) || New(v, r, y);
    }
    forall y ensures NewOk(g, w, r, a + b, y) {
      NewOkCompose(g, w, v, r, a, b, y);
    }
  }

  lemma NewOkCompose(g: Graph, w: Walk, v: Walk, r: Walk, a: set<string>, b: set<string>, y: string)
    requires Extends(w, v) && Extends(v, r) && NewOk(g, w, v, a, y) && NewOk(g, v, r, b, y)
    ensures NewOk(g, w, r, a + b, y)
  {
    if New(w, v, y) {
      ChildrenOkStays(g, v, r, y);
      if y !in a {
        LaterParentStays(g, w, w, v, r, y);
      }
    } else if New(v, r, y) {
      if y !in b {
        LaterParentStays(g, w, v, r, r, y);
      }
    }
  }

  /** Putting `x` out after everything below it. */
  lemma FinishExplores(g: Graph, w: Walk, r1: Walk, x: string)
    requires WalkOk(w) && x !in w.visited && OpenReach(g, w, {x})
    requires Explores(g, Walk(w.visited + {x}, w.ordered), r1, SetOf(Children(g, x)))
    ensures Explores(g, w, Walk(r1.visited, r1.ordered + [x]), {x})
  {
    var w1 := Walk(w.visited + {x}, w.ordered);
    var r := Walk(r1.visited, r1.ordered + [x]);
    assert Open(w1, x) && Open(r1, x);
    forall y ensures Open(r, y) <==> Open(w, y) {
      assert Open(r1, y) <==> Open(w1, y);
    }
    forall y | New(w, r, y) ensures y !in w.visited {
      assert y != x ==> New(w1, r1, y);
    }
    forall y ensures NewOk(g, w, r, {x}, y) {
      if y == x {
        FinishedNode(g, w, r1, x);
      } else if New(w, r, y) {
        assert NewOk(g, w1, r1, SetOf(Children(g, x)), y);
        FinishedBelow(g, w, r1, x, y);
      }
    }
  }

  lemma FinishedNode(g: Graph, w: Walk, r1: Walk, x: string)
    requires WalkOk(w) && x !in w.visited && OpenReach(g, w, {x})
    requires Explores(g, Walk(w.visited + {x}, w.ordered), r1, SetOf(Children(g, x)))
    ensures NewOk(g, w, Walk(r1.visited, r1.ordered + [x]), {x}, x)
  {
    var r := Walk(r1.visited, r1.ordered + [x]);
    var w1 := Walk(w.visited + {x}, w.ordered);
    ReachesItself(g, x);
    forall c | c in Children(g, x) ensures c in r.visited && (Before(r.ordered, c, x) || Reaches(g, c, x)) {
      assert c in SetOf(Children(g, x));
      if c in r1.ordered {
        BeforeLast(r1.ordered, c, x);
      } else {
        assert Open(r1, c) && Open(w1, c);
        assert c != x ==> Open(w, c);
      }
    }
  }

  lemma FinishedBelow(g: Graph, w: Walk, r1: Walk, x: string, y: string)
    requires y != x && NewOk(g, Walk(w.visited + {x}, w.ordered), r1, SetOf(Children(g, x)), y)
    requires New(w, r1, y) && x !in w.ordered
    ensures NewOk(g, w, Walk(r1.visited, r1.ordered + [x]), {x}, y)
  {
    var r := Walk(r1.visited, r1.ordered + [x]);
    var w1 := Walk(w.visited + {x}, w.ordered);
    assert New(w1, r1, y);
    ChildrenOkStays(g, r1, r, y);
    if y in SetOf(Children(g, x)) {
      BeforeLast(r1.ordered, y, x);
      assert New(w, r, x);
    } else {
      LaterParentStays(g, w, w1, r1, r, y);
    }
    var c :| c in SetOf(Children(g, x)) && Reaches(g, c, y);
    ReachesItself(g, x);
    ReachesFurther(g, x, x, c);
    ReachesThrough(g, x, c, y);
  }

  lemma {:induction false} VisitExplores(g: Graph, sessions: set<string>, x: string, w: Walk)
    requires Closed(g, sessions) && x in sessions && WalkOk(w) && OpenReach(g, w, {x})
    ensures Explores(g, w, Visit(g, sessions, x, w), {x})
    decreases |sessions - w.visited|, 0
  {
    if x !in w.visited {
      assert x in sessions - w.visited && sessions - (w.visited + {x}) == sessions - w.visited - {x};
      var w1 := Walk(w.visited + {x}, w.ordered);
      forall s, c {:trigger Open(w1, s), c in SetOf(Children(g, x))} | Open(w1, s) && c in SetOf(Children(g, x))
        ensures Reaches(g, s, c)
      {
        ReachesItself(g, x);
        assert s != x ==> Open(w, s) && x in {x};
        ReachesFurther(g, s, x, c);
      }
      VisitAllExplores(g, sessions, Children(g, x), w1);
      FinishExplores(g, w, VisitAll(g, sessions, Children(g, x), w1), x);
    }
  }

  lemma {:induction false} VisitAllExplores(g: Graph, sessions: set<string>, xs: seq<string>, w: Walk)
    requires Closed(g, sessions) && (forall x :: x in xs ==> x in sessions) && WalkOk(w) && OpenReach(g, w, SetOf(xs))
    ensures Explores(g, w, VisitAll(g, sessions, xs, w), SetOf(xs))
    decreases |sessions - w.visited|, 1 + |xs|
  {
    if xs != [] {
      var v := Visit(g, sessions, xs[0], w);
      assert xs[0] in SetOf(xs);
      assert OpenReach(g, w, {xs[0]});
      VisitExplores(g, sessions, xs[0], w);
      FewerLeft(sessions, w.visited, v.visited);
      OpenReachRest(g, w, v, xs);
      VisitAllExplores(g, sessions, xs[1..], v);
      ExploresCompose(g, w, v, VisitAll(g, sessions, xs[1..], v), {xs[0]}, SetOf(xs[1..]));
      assert SetOf(xs) == {xs[0]} + SetOf(xs[1..]) by {
        assert xs == [xs[0]] + xs[1..];
      }
    }
  }

  lemma OpenReachRest(g: Graph, w: Walk, v: Walk, xs: seq<string>)
    requires xs != [] && OpenReach(g, w, SetOf(xs)) && Extends(w, v)
    ensures OpenReach(g, v, SetOf(xs[1..]))
  {
    forall s, x {:trigger Open(v, s), x in SetOf(xs[1..])} | Open(v, s) && x in SetOf(xs[1..])
      ensures Reaches(g, s, x)
    {
      assert Open(w, s) && x in SetOf(xs);
    }
  }

  // ---------------------------------------------------------------------------------------------
  // The order as a whole
  // ---------------------------------------------------------------------------------------------

  /** The walk from `root`. */
  ghost function Order(g: Graph, sessions: set<string>, root: string): seq<string>
    requires Closed(g, sessions) && root in sessions
  {
    Visit(g, sessions, root, Walk({}, [])).ordered
  }

  lemma {:induction false} PathStaysInside(g: Graph, p: seq<string>, inside: set<string>)
    requires IsPath(g, p) && p[0] in inside
    requires forall y, c {:trigger c in Children(g, y)} :: y in inside && c in Children(g, y) ==> c in inside
    ensures p[|p| - 1] in inside
    decreases |p|
  {
    if |p| > 1 {
      var q := p[..|p| - 1];
      assert q[0] == p[0];
      assert IsPath(g, q);
      PathStaysInside(g, q, inside);
      assert p[|p| - 1] in Children(g, p[|p| - 2]);
    }
  }

  /**
   The walk puts out exactly what `root` leads to, each session once and `root` last. Every other
   session stands before one of its parents, and every child before its parent unless the child leads
   back to it.
   */
  lemma OrderIsDescendantFirst(g: Graph, sessions: set<string>, root: string)
    requires Closed(g, sessions) && root in sessions
    ensures
      var ordered := Order(g, sessions, root);
      && NoDuplicates(ordered) && ordered != [] && ordered[|ordered| - 1] == root
      && (forall y :: y in ordered <==> Reaches(g, root, y))
      && (forall y {:trigger y in ordered} :: y in ordered && y != root ==>
            exists p :: y in Children(g, p) && Before(ordered, y, p))
      && (forall p, c {:trigger c in Children(g, p)} :: p in ordered && c in Children(g, p) ==>
            Before(ordered, c, p) || Reaches(g, c, p))
  {
    var w := Walk({}, []);
    var r := Visit(g, sessions, root, w);
    VisitExplores(g, sessions, root, w);
    assert forall y :: !Open(w, y);
    forall y ensures y in r.visited <==> y in r.ordered {
      assert !Open(r, y);
    }
    forall y | y in r.ordered
      ensures Reaches(g, root, y)
      ensures y != root ==> exists p :: y in Children(g, p) && Before(r.ordered, y, p)
      ensures ChildrenOk(g, r, y)
    {
      assert New(w, r, y) && NewOk(g, w, r, {root}, y);
    }
    forall y | Reaches(g, root, y) ensures y in r.ordered {
      var p :| IsPath(g, p) && p[0] == root && p[|p| - 1] == y;
      PathStaysInside(g, p, r.visited);
    }
  }

  /** Without cycles every child stands before each of its parents. */
  lemma AcyclicOrder(g: Graph, sessions: set<string>, root: string, p: string, c: string)
    requires Closed(g, sessions) && root in sessions
    requires p in Order(g, sessions, root) && c in Children(g, p) && !Reaches(g, c, p)
    ensures Before(Order(g, sessions, root), c, p)
  {
    OrderIsDescendantFirst(g, sessions, root);
  }
}
