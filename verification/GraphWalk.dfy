/** Edge-based reachability over canvas graphs. */
module GraphWalk {
  datatype Edge = Edge(source: string, target: string)

  /** A walk along one or more of the edges, from `a` to `b`. */
  ghost predicate IsPath(edges: seq<Edge>, path: seq<Edge>, a: string, b: string) {
    && path != [] && path[0].source == a && path[|path| - 1].target == b
    && (forall i :: 0 <= i < |path| ==> path[i] in edges)
    && forall i :: 0 <= i < |path| - 1 ==> path[i].target == path[i + 1].source
  }

  ghost predicate Reaches(edges: seq<Edge>, a: string, b: string) {
    exists path :: IsPath(edges, path, a, b)
  }

  lemma OneEdge(edges: seq<Edge>, e: Edge)
    requires e in edges
    ensures Reaches(edges, e.source, e.target)
  {
    assert IsPath(edges, [e], e.source, e.target);
  }

  lemma ReachesTransitive(edges: seq<Edge>, a: string, b: string, c: string)
    requires Reaches(edges, a, b) && Reaches(edges, b, c)
    ensures Reaches(edges, a, c)
  {
    var p :| IsPath(edges, p, a, b);
    var q :| IsPath(edges, q, b, c);
    assert IsPath(edges, p + q, a, c);
  }

  function Flip(edges: seq<Edge>): seq<Edge> {
    seq(|edges|, i requires 0 <= i < |edges| => Edge(edges[i].target, edges[i].source))
  }

  function Backwards(path: seq<Edge>): seq<Edge> {
    seq(|path|, i requires 0 <= i < |path| => Edge(path[|path| - 1 - i].target, path[|path| - 1 - i].source))
  }

  lemma FlipReverses(edges: seq<Edge>, a: string, b: string)
    requires Reaches(edges, a, b)
    ensures Reaches(Flip(edges), b, a)
  {
    var path :| IsPath(edges, path, a, b);
    var back := Backwards(path);
    forall i | 0 <= i < |back|
      ensures back[i] in Flip(edges)
    {
      assert path[|path| - 1 - i] in edges;
      var k :| 0 <= k < |edges| && edges[k] == path[|path| - 1 - i];
      assert Flip(edges)[k] == back[i];
    }
    assert IsPath(Flip(edges), back, b, a);
  }

  /** Walking backwards finds what walking forwards finds in the flipped graph, and the other way round. */
  lemma FlipDual(edges: seq<Edge>, a: string, b: string)
    ensures Reaches(edges, a, b) <==> Reaches(Flip(edges), b, a)
  {
    if Reaches(edges, a, b) {
      FlipReverses(edges, a, b);
    }
    if Reaches(Flip(edges), b, a) {
      FlipReverses(Flip(edges), b, a);
      assert Flip(Flip(edges)) == edges;
    }
  }

  /** A node reaches itself exactly when one of its edges leads to a node that is it or reaches it. */
  lemma OnCycle(edges: seq<Edge>, t: string)
    ensures Reaches(edges, t, t) <==>
              exists e :: e in edges && e.source == t && (e.target == t || Reaches(edges, e.target, t))
  {
    if Reaches(edges, t, t) {
      var path: seq<Edge> :| IsPath(edges, path, t, t);
      var e: Edge := path[0];
      if |path| > 1 {
        assert IsPath(edges, path[1..], e.target, t);
      }
      assert e in edges && e.source == t && (e.target == t || Reaches(edges, e.target, t));
    }
    if e :| e in edges && e.source == t && (e.target == t || Reaches(edges, e.target, t)) {
      OneEdge(edges, e);
      if e.target != t {
        ReachesTransitive(edges, t, e.target, t);
      }
    }
  }

  /** The walk does return its own start when that lies on a cycle. */
  lemma StartCanBeItsOwnPredecessor()
    ensures Reaches([Edge("a", "b"), Edge("b", "a")], "a", "a")
  {
    var edges := [Edge("a", "b"), Edge("b", "a")];
    OneEdge(edges, edges[0]);
    OneEdge(edges, edges[1]);
    ReachesTransitive(edges, "a", "b", "a");
  }

  function Sources(edges: seq<Edge>): set<string> { set e | e in edges :: e.source }

  function Targets(edges: seq<Edge>): set<string> { set e | e in edges :: e.target }

  lemma EndsOf(edges: seq<Edge>, i: nat)
    requires i < |edges|
    ensures edges[i].source in Sources(edges) && edges[i].target in Targets(edges)
  {
  }

  /** Every edge into a node that is done comes from a node in `pred`. */
  ghost predicate ClosedBackwards(edges: seq<Edge>, start: string, pred: set<string>, queue: seq<string>) {
    forall k :: 0 <= k < |edges| && (edges[k].target == start || edges[k].target in pred) && edges[k].target !in queue
                ==> edges[k].source in pred
  }

  ghost predicate ClosedForwards(edges: seq<Edge>, start: string, succ: set<string>, queue: seq<string>) {
    forall k :: 0 <= k < |edges| && (edges[k].source == start || edges[k].source in succ) && edges[k].source !in queue
                ==> edges[k].target in succ
  }

  lemma {:induction false} PathIntoClosed(edges: seq<Edge>, path: seq<Edge>, a: string, t: string, pred: set<string>)
    requires ClosedBackwards(edges, t, pred, []) && IsPath(edges, path, a, t)
    ensures a in pred
  {
    assert path[0] in edges;
    if |path| > 1 {
      PathIntoClosed(edges, path[1..], path[0].target, t, pred);
    }
  }

  lemma {:induction false} PathOutOfClosed(edges: seq<Edge>, path: seq<Edge>, s: string, b: string, succ: set<string>)
    requires ClosedForwards(edges, s, succ, []) && IsPath(edges, path, s, b)
    ensures b in succ
  {
    var n := |path| - 1;
    assert path[n] in edges;
    if n > 0 {
      PathOutOfClosed(edges, path[..n], s, path[n - 1].target, succ);
    }
  }

  lemma ClosedHasAllPredecessors(edges: seq<Edge>, t: string, pred: set<string>)
    requires ClosedBackwards(edges, t, pred, [])
    ensures forall n :: Reaches(edges, n, t) ==> n in pred
  {
    forall n | Reaches(edges, n, t)
      ensures n in pred
    {
      var path :| IsPath(edges, path, n, t);
      PathIntoClosed(edges, path, n, t, pred);
    }
  }

  lemma ClosedHasAllSuccessors(edges: seq<Edge>, s: string, succ: set<string>)
    requires ClosedForwards(edges, s, succ, [])
    ensures forall n :: Reaches(edges, s, n) ==> n in succ
  {
    forall n | Reaches(edges, s, n)
      ensures n in succ
    {
      var path :| IsPath(edges, path, s, n);
      PathOutOfClosed(edges, path, s, n, succ);
    }
  }

  lemma Subset(a: set<string>, b: set<string>)
    requires a <= b
    ensures |a| <= |b|
  {
    assert b == a + (b - a);
  }

  lemma Shrinks(all: set<string>, before: set<string>, after: set<string>)
    requires before < after <= all
    ensures |all - after| < |all - before|
  {
    assert !(after <= before);
    var extra :| extra in after && extra !in before;
    assert all - before >= (all - after) + {extra};
    Subset((all - after) + {extra}, all - before);
  }

  /** The nodes with a non-empty path to `targetId`, itself included if and only if it lies on a cycle. */
  method ReachablePredecessors(targetId: string, edges: seq<Edge>) returns (pred: set<string>)
    ensures forall n :: n in pred <==> Reaches(edges, n, targetId)
  {
    hide IsPath, Reaches, Sources;
    pred := {};
    var queue := [targetId];
    while |queue| > 0
      invariant pred <= Sources(edges)
      invariant forall n :: n in queue ==> n == targetId || n in pred
      invariant forall n :: n in pred ==> Reaches(edges, n, targetId)
      invariant ClosedBackwards(edges, targetId, pred, queue)
      decreases |Sources(edges) - pred|, |queue|
    {
      var cur := queue[0];
      queue := queue[1..];
      ghost var before, rest := pred, queue;
      for i := 0 to |edges|
        invariant before <= pred <= Sources(edges)
        invariant pred == before ==> queue == rest
        invariant rest <= queue
        invariant forall n :: n in queue ==> n == targetId || n in pred
        invariant forall n :: n in pred && n !in before ==> n in queue
        invariant forall n :: n in pred ==> Reaches(edges, n, targetId)
        invariant forall k :: 0 <= k < i && edges[k].target == cur ==> edges[k].source in pred
      {
        var e := edges[i];
        EndsOf(edges, i);
        if e.target == cur && e.source !in pred {
          OneEdge(edges, e);
          if cur != targetId {
            ReachesTransitive(edges, e.source, cur, targetId);
          }
          pred := pred + {e.source};
          queue := queue + [e.source];
        }
      }
      if pred != before {
        Shrinks(Sources(edges), before, pred);
      }
    }
    ClosedHasAllPredecessors(edges, targetId, pred);
  }

  /** The nodes with a non-empty path from `sourceId`, itself included if and only if it lies on a cycle. */
  method ReachableSuccessors(sourceId: string, edges: seq<Edge>) returns (succ: set<string>)
    ensures forall n :: n in succ <==> Reaches(edges, sourceId, n)
  {
    hide IsPath, Reaches, Targets;
    succ := {};
    var queue := [sourceId];
    while |queue| > 0
      invariant succ <= Targets(edges)
      invariant forall n :: n in queue ==> n == sourceId || n in succ
      invariant forall n :: n in succ ==> Reaches(edges, sourceId, n)
      invariant ClosedForwards(edges, sourceId, succ, queue)
      decreases |Targets(edges) - succ|, |queue|
    {
      var cur := queue[0];
      queue := queue[1..];
      ghost var before, rest := succ, queue;
      for i := 0 to |edges|
        invariant before <= succ <= Targets(edges)
        invariant succ == before ==> queue == rest
        invariant rest <= queue
        invariant forall n :: n in queue ==> n == sourceId || n in succ
        invariant forall n :: n in succ && n !in before ==> n in queue
        invariant forall n :: n in succ ==> Reaches(edges, sourceId, n)
        invariant forall k :: 0 <= k < i && edges[k].source == cur ==> edges[k].target in succ
      {
        var e := edges[i];
        EndsOf(edges, i);
        if e.source == cur && e.target !in succ {
          OneEdge(edges, e);
          if cur != sourceId {
            ReachesTransitive(edges, sourceId, cur, e.target);
          }
          succ := succ + {e.target};
          queue := queue + [e.target];
        }
      }
      if succ != before {
        Shrinks(Targets(edges), before, succ);
      }
    }
    ClosedHasAllSuccessors(edges, sourceId, succ);
  }
}
