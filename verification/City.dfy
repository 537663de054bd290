/** Squares of reals, which the solver does not order by itself. */
module Squares {

  lemma SquareGrows(b: real, a: real)
    requires 0.0 <= b < a
    ensures b * b < a * a
  {
    var d := a - b;
    assert d * d > 0.0 && b * d >= 0.0;
    assert a * a == b * b + 2.0 * (b * d) + d * d by {
      assert a == b + d;
    }
  }

  lemma SquareOrder(a: real, b: real)
    requires a >= 0.0 && b >= 0.0 && a * a <= b * b
    ensures a <= b
  {
    if b < a {
      SquareGrows(b, a);
    }
  }
}

/** The road graph (internal/domain/city.go) and walks through it. */
module Roads {

  /** An intersection; row and column stand for the two numbers printed in the source's node names. */
  datatype NodeID = NodeID(row: nat, col: nat)

  datatype EdgeID = EdgeID(from: NodeID, to: NodeID)

  datatype Point = Point(x: real, y: real)

  datatype Edge = Edge(id: EdgeID, from: NodeID, to: NodeID, weight: real, closed: bool)

  datatype City = City(nodes: map<NodeID, Point>, edges: map<NodeID, seq<Edge>>)

  datatype Option<+T> = None | Some(value: T)

  /** The outgoing edges of a node; a missing key reads as no edges. */
  function Out(c: City, n: NodeID): seq<Edge>
  {
    if n in c.edges then c.edges[n] else []
  }

  /** Coordinates of a node; a missing key reads as the zero node. */
  function At(c: City, n: NodeID): Point
  {
    if n in c.nodes then c.nodes[n] else Point(0.0, 0.0)
  }

  /** Adjacency lists only mention nodes of the city and are filed under their origin. */
  ghost predicate WellFormed(c: City)
  {
    c.edges.Keys <= c.nodes.Keys &&
    forall n, k :: n in c.edges && 0 <= k < |c.edges[n]| ==> c.edges[n][k].from == n && c.edges[n][k].to in c.nodes
  }

  // ---------------------------------------------------------------------------------------------
  // Walks over open edges
  // ---------------------------------------------------------------------------------------------

  /** The node a walk from `a` stands on after k edges. */
  function NodeAt(a: NodeID, es: seq<Edge>, k: nat): NodeID
    requires k <= |es|
  {
    if k == 0 then a else es[k - 1].to
  }

  ghost predicate IsWalk(c: City, a: NodeID, es: seq<Edge>, b: NodeID)
  {
    NodeAt(a, es, |es|) == b &&
    forall k :: 0 <= k < |es| ==> es[k] in Out(c, NodeAt(a, es, k)) && !es[k].closed
  }

  ghost predicate Reachable(c: City, a: NodeID, b: NodeID)
  {
    exists es :: IsWalk(c, a, es, b)
  }

  ghost function Length(es: seq<Edge>): real
  {
    if es == [] then 0.0 else Length(es[..|es| - 1]) + es[|es| - 1].weight
  }

  /** The nodes a walk visits, both ends included. */
  function NodesOf(a: NodeID, es: seq<Edge>): seq<NodeID>
  {
    seq(|es| + 1, k requires 0 <= k <= |es| => NodeAt(a, es, k))
  }

  lemma WalkExtend(c: City, a: NodeID, es: seq<Edge>, b: NodeID, e: Edge)
    requires IsWalk(c, a, es, b) && e in Out(c, b) && !e.closed
    ensures IsWalk(c, a, es + [e], e.to) && Length(es + [e]) == Length(es) + e.weight
  {
    var w := es + [e];
    assert w[..|w| - 1] == es;
    forall k | 0 <= k < |w|
      ensures w[k] in Out(c, NodeAt(a, w, k)) && !w[k].closed
    {
      assert NodeAt(a, w, k) == NodeAt(a, es, k);
    }
  }

  lemma WalkEdge(c: City, a: NodeID, es: seq<Edge>, b: NodeID, k: nat)
    requires IsWalk(c, a, es, b) && k < |es|
    ensures es[k] in Out(c, NodeAt(a, es, k)) && !es[k].closed && NodeAt(a, es, k + 1) == es[k].to
  {
  }

  lemma WalkPrefix(c: City, a: NodeID, es: seq<Edge>, b: NodeID, k: nat)
    requires IsWalk(c, a, es, b) && k <= |es|
    ensures IsWalk(c, a, es[..k], NodeAt(a, es, k))
  {
    forall i | 0 <= i < k
      ensures es[..k][i] in Out(c, NodeAt(a, es[..k], i)) && !es[..k][i].closed
    {
      assert NodeAt(a, es[..k], i) == NodeAt(a, es, i);
    }
  }

  lemma {:induction false} LengthStep(es: seq<Edge>, k: nat)
    requires k < |es|
    ensures Length(es[..k + 1]) == Length(es[..k]) + es[k].weight
  {
    assert es[..k + 1][..k] == es[..k];
  }
}
