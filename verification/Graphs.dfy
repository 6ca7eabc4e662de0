/** Directed graphs as edge sets: reachability, closures computed by worklist, and acyclicity. */
module Graphs {

  type Edges = set<(string, string)>

  ghost predicate IsPath(edges: Edges, p: seq<string>) {
    |p| > 0 && forall i | 0 <= i < |p| - 1 :: (p[i], p[i + 1]) in edges
  }

  ghost predicate Joins(edges: Edges, p: seq<string>, a: string, b: string) {
    IsPath(edges, p) && p[0] == a && p[|p| - 1] == b
  }

  /** Some path, perhaps of no edges, leads from `a` to `b`. */
  ghost predicate Reaches(edges: Edges, a: string, b: string) {
    exists p :: Joins(edges, p, a, b)
  }

  /** No edge can be followed back to where it started. */
  ghost predicate Acyclic(edges: Edges) {
    forall e | e in edges :: !Reaches(edges, e.1, e.0)
  }

  lemma ReachesSelf(edges: Edges, a: string)
    ensures Reaches(edges, a, a)
  {
    assert Joins(edges, [a], a, a);
  }

  lemma ReachesTransitively(edges: Edges, a: string, b: string, c: string)
    requires Reaches(edges, a, b) && Reaches(edges, b, c)
    ensures Reaches(edges, a, c)
  {
    var p :| Joins(edges, p, a, b);
    var q :| Joins(edges, q, b, c);
    var r := p[..|p| - 1] + q;
    forall i | 0 <= i < |r| - 1 ensures (r[i], r[i + 1]) in edges {
      if i < |p| - 1 {
        assert r[i] == p[i] && r[i + 1] == p[i + 1];
      } else {
        assert r[i] == q[i - (|p| - 1)] && r[i + 1] == q[i + 1 - (|p| - 1)];
      }
    }
    assert Joins(edges, r, a, c);
  }

  lemma EdgeReaches(edges: Edges, a: string, b: string)
    requires (a, b) in edges
    ensures Reaches(edges, a, b)
  {
    assert Joins(edges, [a, b], a, b);
  }

  lemma ReachesThrough(edges: Edges, a: string, b: string, c: string)
    requires (a, b) in edges && Reaches(edges, b, c)
    ensures Reaches(edges, a, c)
  {
    EdgeReaches(edges, a, b);
    ReachesTransitively(edges, a, b, c);
  }

  lemma MoreEdgesReachMore(edges: Edges, more: Edges, a: string, b: string)
    requires edges <= more && Reaches(edges, a, b)
    ensures Reaches(more, a, b)
  {
    var p :| Joins(edges, p, a, b);
    assert Joins(more, p, a, b);
  }

  // ---- Closures -------------------------------------------------------------------------------

  ghost predicate Closed(edges: Edges, nodes: set<string>) {
    forall e | e in edges :: e.0 in nodes ==> e.1 in nodes
  }

  lemma {:induction false} PathStaysInside(edges: Edges, nodes: set<string>, p: seq<string>, a: string, b: string)
    requires Closed(edges, nodes) && a in nodes && Joins(edges, p, a, b)
    ensures b in nodes
  {
    if |p| > 1 {
      assert (p[0], p[1]) in edges;
      var rest := p[1..];
      forall i | 0 <= i < |rest| - 1 ensures (rest[i], rest[i + 1]) in edges {
        assert (p[i + 1], p[i + 2]) in edges;
      }
      PathStaysInside(edges, nodes, rest, p[1], b);
    }
  }

  lemma ClosedHoldsReachable(edges: Edges, nodes: set<string>, a: string, b: string)
    requires Closed(edges, nodes) && a in nodes && Reaches(edges, a, b)
    ensures b in nodes
  {
    var p :| Joins(edges, p, a, b);
    PathStaysInside(edges, nodes, p, a, b);
  }

  /** The recursive closure query: exactly the nodes reachable from `start`, itself included. */
  method Closure(edges: Edges, start: string) returns (nodes: set<string>)
    ensures forall n :: n in nodes <==> Reaches(edges, start, n)
  {
    nodes := {start};
    var frontier := {start};
    ghost var targets := set e | e in edges :: e.1;
    ReachesSelf(edges, start);
    while frontier != {}
      invariant start in nodes && frontier <= nodes
      invariant forall n | n in nodes :: Reaches(edges, start, n)
      invariant forall e | e in edges :: e.0 in nodes - frontier ==> e.1 in nodes
      decreases |targets - nodes|, |frontier|
    {
      var next := set e | e in edges && e.0 in frontier && e.1 !in nodes :: e.1;
      forall n | n in next ensures Reaches(edges, start, n) {
        var e :| e in edges && e.0 in frontier && e.1 == n;
        EdgeReaches(edges, e.0, e.1);
        ReachesTransitively(edges, start, e.0, n);
      }
      ghost var before := targets - nodes;
      if next != {} {
        var x :| x in next;
        assert x in before && x !in targets - (nodes + next);
        assert targets - (nodes + next) < before;
        ProperSubsetIsSmaller(targets - (nodes + next), before);
      } else {
        assert targets - (nodes + next) == before;
      }
      nodes := nodes + next;
      frontier := next;
    }
    forall n | Reaches(edges, start, n) ensures n in nodes {
      ClosedHoldsReachable(edges, nodes, start, n);
    }
  }

  lemma ProperSubsetIsSmaller<T>(a: set<T>, b: set<T>)
    requires a < b
    ensures |a| < |b|
  {
    assert b == a + (b - a);
    assert |b| == |a| + |b - a|;
    var x :| x in b - a;
  }

  // ---- Growing a graph ------------------------------------------------------------------------

  ghost predicate Untouched(edges: Edges, node: string) {
    forall e | e in edges :: e.1 != node
  }

  /** A path from elsewhere cannot use edges out of a node nothing points to. */
  lemma {:induction false} PathAvoidsNewNode(edges: Edges, more: Edges, node: string, p: seq<string>, a: string, b: string)
    requires Untouched(edges + more, node) && (forall e | e in more :: e.0 == node) && a != node
    requires Joins(edges + more, p, a, b)
    ensures Reaches(edges, a, b)
  {
    if |p| == 1 {
      ReachesSelf(edges, a);
    } else {
      assert (p[0], p[1]) in edges + more;
      var rest := p[1..];
      forall i | 0 <= i < |rest| - 1 ensures (rest[i], rest[i + 1]) in edges + more {
        assert (p[i + 1], p[i + 2]) in edges + more;
      }
      PathAvoidsNewNode(edges, more, node, rest, p[1], b);
      ReachesThrough(edges, a, p[1], b);
    }
  }

  /** Edges out of a node nothing points to change no other node's closure. */
  lemma NewNodeChangesNoOther(edges: Edges, more: Edges, node: string, a: string, b: string)
    requires Untouched(edges + more, node) && (forall e | e in more :: e.0 == node) && a != node
    ensures Reaches(edges + more, a, b) <==> Reaches(edges, a, b)
  {
    if Reaches(edges + more, a, b) {
      var p :| Joins(edges + more, p, a, b);
      PathAvoidsNewNode(edges, more, node, p, a, b);
    }
    if Reaches(edges, a, b) {
      MoreEdgesReachMore(edges, edges + more, a, b);
    }
  }

  lemma LastStep(edges: Edges, p: seq<string>)
    requires IsPath(edges, p) && |p| > 1
    ensures !Untouched(edges, p[|p| - 1])
  {
    assert (p[|p| - 2], p[|p| - 1]) in edges;
  }

  lemma NothingReachesNewNode(edges: Edges, node: string, a: string)
    requires Untouched(edges, node) && Reaches(edges, a, node)
    ensures a == node
  {
    var p :| Joins(edges, p, a, node);
    if |p| > 1 {
      LastStep(edges, p);
    }
  }

  lemma NewNodeKeepsAcyclic(edges: Edges, more: Edges, node: string)
    requires Acyclic(edges) && Untouched(edges + more, node) && forall e | e in more :: e.0 == node
    ensures Acyclic(edges + more)
  {
    forall e | e in edges + more ensures !Reaches(edges + more, e.1, e.0) {
      if Reaches(edges + more, e.1, e.0) {
        NewNodeChangesNoOther(edges, more, node, e.1, e.0);
        if e.0 == node {
          NothingReachesNewNode(edges + more, node, e.1);
        }
      }
    }
  }

  /** A path after adding one edge either never uses it or reaches its tail and leaves from its head. */
  lemma {:induction false} PathWithOneMore(edges: Edges, a: string, b: string, p: seq<string>, from: string, to: string)
    requires Joins(edges + {(a, b)}, p, from, to)
    ensures Reaches(edges, from, to) || (Reaches(edges, from, a) && Reaches(edges, b, to))
  {
    if |p| == 1 {
      ReachesSelf(edges, from);
    } else {
      assert (p[0], p[1]) in edges + {(a, b)};
      var rest := p[1..];
      forall i | 0 <= i < |rest| - 1 ensures (rest[i], rest[i + 1]) in edges + {(a, b)} {
        assert (p[i + 1], p[i + 2]) in edges + {(a, b)};
      }
      PathWithOneMore(edges, a, b, rest, p[1], to);
      if (p[0], p[1]) in edges {
        if Reaches(edges, p[1], to) {
          ReachesThrough(edges, from, p[1], to);
        } else {
          ReachesThrough(edges, from, p[1], a);
        }
      } else {
        ReachesSelf(edges, a);
      }
    }
  }

  /** An edge keeps the graph acyclic exactly when its head did not already reach its tail. */
  lemma OneMoreEdge(edges: Edges, a: string, b: string)
    requires Acyclic(edges)
    ensures Acyclic(edges + {(a, b)}) <==> !Reaches(edges, b, a)
  {
    var more := edges + {(a, b)};
    if Reaches(edges, b, a) {
      MoreEdgesReachMore(edges, more, b, a);
      assert (a, b) in more;
    } else {
      forall e | e in more ensures !Reaches(more, e.1, e.0) {
        if Reaches(more, e.1, e.0) {
          var p :| Joins(more, p, e.1, e.0);
          PathWithOneMore(edges, a, b, p, e.1, e.0);
          if e in edges {
            assert Reaches(edges, b, e.0) && Reaches(edges, e.1, a);
            ReachesThrough(edges, e.0, e.1, a);
            ReachesTransitively(edges, b, e.0, a);
          }
        }
      }
    }
  }

  /** Every nonempty finite set of nodes of an acyclic graph has a member with no edge into the set. */
  lemma {:induction false} SomeMemberIsLast(edges: Edges, nodes: set<string>) returns (last: string)
    requires Acyclic(edges) && nodes != {}
    ensures last in nodes && forall e | e in edges && e.0 == last :: e.1 !in nodes
    decreases |nodes|
  {
    var x :| x in nodes;
    var beyond := set y | y in nodes && (exists e | e in edges :: e.0 == x && Reaches(edges, e.1, y));
    assert x !in beyond;
    if beyond == {} {
      forall e | e in edges && e.0 == x ensures e.1 !in nodes {
        ReachesSelf(edges, e.1);
        assert e.1 in nodes ==> e.1 in beyond;
      }
      last := x;
    } else {
      assert beyond < nodes;
      ProperSubsetIsSmaller(beyond, nodes);
      last := SomeMemberIsLast(edges, beyond);
      forall e | e in edges && e.0 == last ensures e.1 !in nodes {
        var first :| first in edges && first.0 == x && Reaches(edges, first.1, last);
        EdgeReaches(edges, last, e.1);
        ReachesTransitively(edges, first.1, last, e.1);
        assert e.1 in nodes ==> e.1 in beyond;
      }
    }
  }
}
