/**
 The command line's version of the walk: it asks the server for the graph around each session as it
 gets there, follows the edges that start at that session, and gives up when a request fails.
 */
module RemoteTree {
  import opened Options
  import opened SessionTree

  datatype Edge = Edge(parentId: string, childId: string)

  /** The children that the answer for `x` names; other edges in it are passed over. */
  function ChildIds(edges: seq<Edge>, x: string): seq<string> {
    if edges == [] then []
    else if edges[0].parentId == x then [edges[0].childId] + ChildIds(edges[1..], x)
    else ChildIds(edges[1..], x)
  }

  /** The graph that the answers amount to; a session without an answer is one whose request fails. */
  function Answered(answers: map<string, seq<Edge>>): Graph {
    map x | x in answers :: ChildIds(answers[x], x)
  }

  class RemoteWalker {
    const answers: map<string, seq<Edge>>
    ghost const sessions: set<string>
    var visited: set<string>
    var result: seq<string>

    constructor (answers: map<string, seq<Edge>>, ghost sessions: set<string>)
      ensures this.answers == answers && this.sessions == sessions && visited == {} && result == []
    {
      this.answers, this.sessions := answers, sessions;
      visited, result := {}, [];
    }

    ghost function State(): Walk
      reads this
    {
      Walk(visited, result)
    }

    method Visit(x: string) returns (ok: bool)
      requires Closed(Answered(answers), sessions) && x in sessions
      modifies this
      ensures ok ==> State() == SessionTree.Visit(Answered(answers), sessions, x, old(State()))
      ensures ok ==> forall y :: y in visited && y !in old(visited) ==> y in answers
      ensures !ok ==> exists y :: Reaches(Answered(answers), x, y) && y !in answers
      decreases |sessions - visited|
    {
      ghost var g := Answered(answers);
      if x in visited {
        return true;
      }
      assert x in sessions - visited && sessions - (visited + {x}) == sessions - visited - {x};
      visited := visited + {x};
      ReachesItself(g, x);
      if x !in answers {
        return false;
      }
      var childIds := ChildIds(answers[x], x);
      assert childIds == Children(g, x) && forall c :: c in childIds ==> c in sessions;
      ghost var goal := VisitAll(g, sessions, childIds, State());
      var i := 0;
      while i < |childIds|
        invariant i <= |childIds| && old(visited) + {x} <= visited
        invariant VisitAll(g, sessions, childIds[i..], State()) == goal
        invariant forall y :: y in visited && y !in old(visited) ==> y in answers
      {
        FewerLeft(sessions, old(visited) + {x}, visited);
        assert childIds[i..][0] == childIds[i] && childIds[i..][1..] == childIds[i + 1..];
        ok := Visit(childIds[i]);
        if !ok {
          ghost var y :| Reaches(g, childIds[i], y) && y !in answers;
          ReachesFurther(g, x, x, childIds[i]);
          ReachesThrough(g, x, childIds[i], y);
          return false;
        }
        i := i + 1;
      }
      result := result + [x];
      return true;
    }
  }

  /** Everything that the answers mention. */
  ghost function Mentioned(answers: map<string, seq<Edge>>, root: string): set<string> {
    {root} + answers.Keys + set x, e | x in answers && e in answers[x] :: e.childId
  }

  /** The walk goes from a session to exactly those that some edge of its answer leads to. */
  lemma {:induction false} ChildIdsAreEdges(edges: seq<Edge>, x: string, c: string)
    ensures c in ChildIds(edges, x) <==> Edge(x, c) in edges
  {
    if edges != [] {
      assert edges == [edges[0]] + edges[1..];
      ChildIdsAreEdges(edges[1..], x, c);
    }
  }

  /** The children of a session come in the order of the edges. */
  lemma {:induction false} ChildIdsKeepOrder(edges: seq<Edge>, e: Edge, more: seq<Edge>, x: string)
    ensures ChildIds(edges + [e] + more, x) ==
            ChildIds(edges, x) + (if e.parentId == x then [e.childId] else []) + ChildIds(more, x)
  {
    if edges == [] {
      assert [] + [e] + more == [e] + more && ([e] + more)[1..] == more;
    } else {
      assert (edges + [e] + more)[1..] == edges[1..] + [e] + more;
      ChildIdsKeepOrder(edges[1..], e, more, x);
    }
  }

  lemma ChildrenAreEdges(answers: map<string, seq<Edge>>, x: string, c: string)
    ensures c in Children(Answered(answers), x) <==> x in answers && Edge(x, c) in answers[x]
  {
    if x in answers {
      ChildIdsAreEdges(answers[x], x, c);
    }
  }

  lemma MentionedIsClosed(answers: map<string, seq<Edge>>, root: string)
    ensures Closed(Answered(answers), Mentioned(answers, root))
  {
    var g := Answered(answers);
    forall x, c {:trigger c in Children(g, x)} | x in Mentioned(answers, root) && c in Children(g, x)
      ensures c in Mentioned(answers, root)
    {
      ChildIdsAreEdges(answers[x], x, c);
      assert Edge(x, c).childId == c;
    }
  }

  /** The walk fails exactly when it would need an answer that does not come. */
  method RemoteDescendantFirst(answers: map<string, seq<Edge>>, root: string) returns (ordered: Option<seq<string>>)
    ensures ordered.None? <==> exists y :: Reaches(Answered(answers), root, y) && y !in answers
    ensures Closed(Answered(answers), Mentioned(answers, root))
    ensures ordered.Some? ==> ordered.value == Order(Answered(answers), Mentioned(answers, root), root)
  {
    MentionedIsClosed(answers, root);
    var walker := new RemoteWalker(answers, Mentioned(answers, root));
    var ok := walker.Visit(root);
    if !ok {
      return None;
    }
    ghost var g := Answered(answers);
    OrderIsDescendantFirst(g, Mentioned(answers, root), root);
    VisitExplores(g, Mentioned(answers, root), root, Walk({}, []));
    forall y | Reaches(g, root, y) ensures y in answers {
      assert y in walker.result && y in walker.visited;
    }
    return Some(walker.result);
  }
}
