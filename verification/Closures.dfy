/** Opening and closing roads (internal/domain/city.go lines 35-59, internal/simulation/simulation.go
    lines 484-544 and 571-581). */
module Closures {
  import opened Roads
  import opened Routing

  function FirstTo(es: seq<Edge>, to: NodeID): Option<Edge>
  {
    if es == [] then None else if es[0].to == to then Some(es[0]) else FirstTo(es[1..], to)
  }

  /** The edge from `from` to `to`, looked up by its ends (simulation.go lines 537-544). */
  function EdgeBetween(c: City, from: NodeID, to: NodeID): Option<Edge>
  {
    FirstTo(Out(c, from), to)
  }

  lemma {:induction false} FirstToFound(es: seq<Edge>, to: NodeID) returns (k: nat)
    requires FirstTo(es, to).Some?
    ensures k < |es| && es[k] == FirstTo(es, to).value && es[k].to == to
  {
    if es[0].to == to {
      k := 0;
    } else {
      k := FirstToFound(es[1..], to);
      k := k + 1;
    }
  }

  /** At most one edge between two nodes in each direction, none from a node to itself. */
  ghost predicate Simple(c: City)
  {
    (forall n, i, j :: n in c.edges && 0 <= i < j < |c.edges[n]| ==> c.edges[n][i].to != c.edges[n][j].to) &&
    (forall n, i :: n in c.edges && 0 <= i < |c.edges[n]| ==> c.edges[n][i].to != n)
  }

  ghost predicate UniqueIds(c: City)
  {
    forall n, i, m, j ::
      n in c.edges && 0 <= i < |c.edges[n]| && m in c.edges && 0 <= j < |c.edges[m]| &&
      c.edges[n][i].id == c.edges[m][j].id
      ==> n == m && i == j
  }

  /** Roads run both ways and both directions agree on being closed. */
  ghost predicate Symmetric(c: City)
  {
    forall a, b :: EdgeBetween(c, a, b).Some? ==>
      EdgeBetween(c, b, a).Some? && EdgeBetween(c, b, a).value.closed == EdgeBetween(c, a, b).value.closed
  }

  /** The shape of generated cities that closures rely on. */
  ghost predicate Streets(c: City)
  {
    WellFormed(c) && Simple(c) && UniqueIds(c)
  }

  function Marked(e: Edge, id: EdgeID, closed: bool): Edge
  {
    if e.id == id then e.(closed := closed) else e
  }

  /** The city with the edge of that id opened or closed. */
  function WithClosed(c: City, id: EdgeID, closed: bool): City
  {
    c.(edges := map n | n in c.edges ::
        seq(|c.edges[n]|, i requires n in c.edges && 0 <= i < |c.edges[n]| => Marked(c.edges[n][i], id, closed)))
  }

  lemma {:induction false} FirstToIs(es: seq<Edge>, to: NodeID, k: nat)
    requires k < |es| && es[k].to == to
    requires forall i :: 0 <= i < k ==> es[i].to != to
    ensures FirstTo(es, to) == Some(es[k])
  {
    if k > 0 {
      FirstToIs(es[1..], to, k - 1);
    }
  }

  lemma {:induction false} FirstToMarked(es: seq<Edge>, es': seq<Edge>, to: NodeID, id: EdgeID, closed: bool)
    requires |es'| == |es| && forall i :: 0 <= i < |es| ==> es'[i] == Marked(es[i], id, closed)
    ensures FirstTo(es', to).Some? == FirstTo(es, to).Some?
    ensures FirstTo(es, to).Some? ==> FirstTo(es', to).value == Marked(FirstTo(es, to).value, id, closed)
  {
    if es != [] && es[0].to != to {
      FirstToMarked(es[1..], es'[1..], to, id, closed);
    }
  }

  /** Marking an edge changes one lookup at most, and only its flag. */
  lemma EdgeBetweenMarked(c: City, id: EdgeID, closed: bool, a: NodeID, b: NodeID)
    ensures var before, after := EdgeBetween(c, a, b), EdgeBetween(WithClosed(c, id, closed), a, b);
      after.Some? == before.Some? && (before.Some? ==> after.value == Marked(before.value, id, closed))
  {
    if a in c.edges {
      FirstToMarked(c.edges[a], WithClosed(c, id, closed).edges[a], b, id, closed);
    }
  }

  /** Marking keeps nodes, weights, ends and ids. */
  lemma MarkedStreets(c: City, id: EdgeID, closed: bool)
    requires Streets(c)
    ensures Streets(WithClosed(c, id, closed))
  {
    var c' := WithClosed(c, id, closed);
    assert c'.edges.Keys == c.edges.Keys;
    assert forall n, i :: n in c'.edges && 0 <= i < |c'.edges[n]| ==>
      c'.edges[n][i] == Marked(c.edges[n][i], id, closed);
  }

  lemma MarkedMetric(c: City, id: EdgeID, closed: bool, euclid: (Point, Point) -> real)
    requires Metric(c, euclid)
    ensures Metric(WithClosed(c, id, closed), euclid)
  {
    var c' := WithClosed(c, id, closed);
    forall n, k | n in c'.edges && 0 <= k < |c'.edges[n]|
      ensures c'.edges[n][k].weight >= euclid(At(c', n), At(c', c'.edges[n][k].to))
    {
      assert c'.edges[n][k] == Marked(c.edges[n][k], id, closed);
    }
  }

  ghost predicate HasEdge(c: City, e: Edge)
  {
    exists n, i :: n in c.edges && 0 <= i < |c.edges[n]| && c.edges[n][i] == e
  }

  /** Two lookups find the same edge id only between the same ends. */
  lemma IdsDiffer(c: City, a: NodeID, b: NodeID, a': NodeID, b': NodeID)
    requires Streets(c) && EdgeBetween(c, a, b).Some? && EdgeBetween(c, a', b').Some?
    requires EdgeBetween(c, a, b).value.id == EdgeBetween(c, a', b').value.id
    ensures a == a' && b == b'
  {
    var i := FirstToFound(Out(c, a), b);
    var j := FirstToFound(Out(c, a'), b');
    assert c.edges[a][i].id == c.edges[a'][j].id;
  }

  /** The lookup by ends finds any edge of a simple city. */
  lemma EdgeIsBetween(c: City, e: Edge)
    requires Streets(c) && HasEdge(c, e)
    ensures EdgeBetween(c, e.from, e.to) == Some(e)
  {
    var n, i :| n in c.edges && 0 <= i < |c.edges[n]| && c.edges[n][i] == e;
    FirstToIs(c.edges[n], e.to, i);
  }

  /** Both directions of a road set to the same flag (simulation.go lines 493-498 and 520-525). */
  function BothWays(c: City, e: Edge, closed: bool): City
  {
    var c1 := WithClosed(c, e.id, closed);
    var back := EdgeBetween(c1, e.to, e.from);
    if back.Some? then WithClosed(c1, back.value.id, closed) else c1
  }

  /** What the lookup finds after both directions of e were set. */
  function Set(c: City, e: Edge, closed: bool, a: NodeID, b: NodeID): Edge
    requires EdgeBetween(c, a, b).Some?
  {
    var x := EdgeBetween(c, a, b).value;
    if (a, b) == (e.from, e.to) || (a, b) == (e.to, e.from) then x.(closed := closed) else x
  }

  /** Setting both directions keeps the city symmetric, and changes no other road. */
  lemma BothWaysEdge(c: City, e: Edge, closed: bool, a: NodeID, b: NodeID)
    requires Streets(c) && HasEdge(c, e) && Symmetric(c)
    ensures EdgeBetween(BothWays(c, e, closed), a, b).Some? == EdgeBetween(c, a, b).Some?
    ensures EdgeBetween(c, a, b).Some? ==> EdgeBetween(BothWays(c, e, closed), a, b).value == Set(c, e, closed, a, b)
  {
    hide WithClosed, EdgeBetween, Streets, HasEdge;
    var c1 := WithClosed(c, e.id, closed);
    EdgeIsBetween(c, e);
    EdgeBetweenMarked(c, e.id, closed, a, b);
    EdgeBetweenMarked(c, e.id, closed, e.to, e.from);
    var back := EdgeBetween(c1, e.to, e.from).value;
    EdgeBetweenMarked(c1, back.id, closed, a, b);
    if EdgeBetween(c, a, b).Some? {
      var x := EdgeBetween(c, a, b).value;
      if x.id == e.id { IdsDiffer(c, a, b, e.from, e.to); }
      if x.id == EdgeBetween(c, e.to, e.from).value.id { IdsDiffer(c, a, b, e.to, e.from); }
    }
  }

  /** One direction of the symmetry of BothWays. */
  lemma BothWaysPair(c: City, e: Edge, closed: bool, a: NodeID, b: NodeID)
    requires Streets(c) && HasEdge(c, e) && Symmetric(c) && EdgeBetween(BothWays(c, e, closed), a, b).Some?
    ensures var c2 := BothWays(c, e, closed);
      EdgeBetween(c2, b, a).Some? && EdgeBetween(c2, b, a).value.closed == EdgeBetween(c2, a, b).value.closed
  {
    hide BothWays, EdgeBetween, Streets, HasEdge;
    BothWaysEdge(c, e, closed, a, b);
    BothWaysEdge(c, e, closed, b, a);
  }

  lemma BothWaysKeeps(c: City, e: Edge, closed: bool, euclid: (Point, Point) -> real)
    requires Streets(c) && HasEdge(c, e) && Symmetric(c) && Metric(c, euclid)
    ensures Streets(BothWays(c, e, closed)) && Symmetric(BothWays(c, e, closed))
    ensures Metric(BothWays(c, e, closed), euclid)
    ensures BothWays(c, e, closed).nodes == c.nodes
  {
    var c1 := WithClosed(c, e.id, closed);
    var c2 := BothWays(c, e, closed);
    MarkedStreets(c, e.id, closed);
    MarkedMetric(c, e.id, closed, euclid);
    var back := EdgeBetween(c1, e.to, e.from);
    if back.Some? {
      MarkedStreets(c1, back.value.id, closed);
      MarkedMetric(c1, back.value.id, closed, euclid);
    }
    hide WithClosed, BothWays, Streets, Metric, EdgeBetween;
    forall a, b | EdgeBetween(c2, a, b).Some?
      ensures EdgeBetween(c2, b, a).Some? && EdgeBetween(c2, b, a).value.closed == EdgeBetween(c2, a, b).value.closed
    {
      BothWaysPair(c, e, closed, a, b);
    }
  }

  // ---------------------------------------------------------------------------------------------
  // Searching by id
  // ---------------------------------------------------------------------------------------------

  /** EdgeByID (city.go lines 37-46): the adjacency lists are searched in no particular order. */
  method EdgeByID(c: City, id: EdgeID) returns (r: Option<Edge>)
    ensures r.Some? ==> r.value.id == id && HasEdge(c, r.value)
    ensures r.None? ==> forall n, i :: n in c.edges && 0 <= i < |c.edges[n]| ==> c.edges[n][i].id != id
  {
    var rest := c.edges.Keys;
    while rest != {}
      invariant rest <= c.edges.Keys
      invariant forall n, i :: n in c.edges && n !in rest && 0 <= i < |c.edges[n]| ==> c.edges[n][i].id != id
      decreases |rest|
    {
      var n :| n in rest;
      for i := 0 to |c.edges[n]|
        invariant forall k :: 0 <= k < i ==> c.edges[n][k].id != id
      {
        if c.edges[n][i].id == id {
          return Some(c.edges[n][i]);
        }
      }
      rest := rest - {n};
    }
    return None;
  }

  /** SetClosed (city.go lines 49-59): flags the first edge found with that id. */
  method SetClosed(c: City, id: EdgeID, closed: bool) returns (c': City, found: bool)
    requires UniqueIds(c)
    ensures c' == WithClosed(c, id, closed)
    ensures found <==> exists n, i :: n in c.edges && 0 <= i < |c.edges[n]| && c.edges[n][i].id == id
  {
    var rest := c.edges.Keys;
    while rest != {}
      invariant rest <= c.edges.Keys
      invariant forall n, i :: n in c.edges && n !in rest && 0 <= i < |c.edges[n]| ==> c.edges[n][i].id != id
      decreases |rest|
    {
      var n :| n in rest;
      for i := 0 to |c.edges[n]|
        invariant forall k :: 0 <= k < i ==> c.edges[n][k].id != id
      {
        if c.edges[n][i].id == id {
          c' := c.(edges := c.edges[n := c.edges[n][i := c.edges[n][i].(closed := closed)]]);
          OneMarked(c, id, closed, n, i);
          return c', true;
        }
      }
      rest := rest - {n};
    }
    NoneMarked(c, id, closed);
    return c, false;
  }

  lemma OneMarked(c: City, id: EdgeID, closed: bool, n: NodeID, i: nat)
    requires UniqueIds(c) && n in c.edges && i < |c.edges[n]| && c.edges[n][i].id == id
    ensures c.edges[n := c.edges[n][i := c.edges[n][i].(closed := closed)]] == WithClosed(c, id, closed).edges
  {
    var es := c.edges[n := c.edges[n][i := c.edges[n][i].(closed := closed)]];
    var es' := WithClosed(c, id, closed).edges;
    forall m | m in c.edges
      ensures es[m] == es'[m]
    {
      forall j | 0 <= j < |c.edges[m]|
        ensures es[m][j] == es'[m][j]
      {
      }
    }
  }

  lemma NoneMarked(c: City, id: EdgeID, closed: bool)
    requires forall n, i :: n in c.edges && 0 <= i < |c.edges[n]| ==> c.edges[n][i].id != id
    ensures WithClosed(c, id, closed) == c
  {
    forall m | m in c.edges
      ensures WithClosed(c, id, closed).edges[m] == c.edges[m]
    {
      forall j | 0 <= j < |c.edges[m]|
        ensures WithClosed(c, id, closed).edges[m][j] == c.edges[m][j]
      {
      }
    }
  }

  // ---------------------------------------------------------------------------------------------
  // Routes over open roads
  // ---------------------------------------------------------------------------------------------

  ghost predicate OpenHop(c: City, a: NodeID, b: NodeID)
  {
    EdgeBetween(c, a, b).Some? && !EdgeBetween(c, a, b).value.closed
  }

  /** Every hop from position i on is an existing open edge. */
  ghost predicate ClearFrom(c: City, route: seq<NodeID>, i: nat)
  {
    forall k :: i <= k < |route| - 1 ==> OpenHop(c, route[k], route[k + 1])
  }

  /** Lines 573-581: does any remaining hop cross a closed or missing edge? */
  method RouteUsesClosedEdge(c: City, route: seq<NodeID>, fromIndex: nat) returns (b: bool)
    ensures b <==> !ClearFrom(c, route, fromIndex)
  {
    var i := fromIndex;
    while i < |route| - 1
      invariant fromIndex <= i
      invariant forall k :: fromIndex <= k < i && k < |route| - 1 ==> OpenHop(c, route[k], route[k + 1])
    {
      var edge: Option<Edge> := EdgeBetween(c, route[i], route[i + 1]);
      if edge.None? || edge.value.closed {
        assert !OpenHop(c, route[i], route[i + 1]);
        return true;
      }
      i := i + 1;
    }
    return false;
  }

  lemma WalkIsClear(c: City, a: NodeID, es: seq<Edge>, b: NodeID)
    requires Streets(c) && IsWalk(c, a, es, b)
    ensures ClearFrom(c, NodesOf(a, es), 0)
  {
    var nodes := NodesOf(a, es);
    hide Streets, IsWalk, OpenHop, NodeAt;
    forall k | 0 <= k < |nodes| - 1
      ensures OpenHop(c, nodes[k], nodes[k + 1])
    {
      WalkHop(c, a, es, b, k);
    }
  }

  /** A computed route runs over open edges only. */
  lemma RouteIsClear(c: City, a: NodeID, b: NodeID, r: Route)
    requires Streets(c) && IsRoute(c, a, b, r)
    ensures |r.nodes| > 0 && r.nodes[0] == a && r.nodes[|r.nodes| - 1] == b && ClearFrom(c, r.nodes, 0)
  {
    hide Streets, ClearFrom;
    var es: seq<Edge> :| IsWalk(c, a, es, b) && r.nodes == NodesOf(a, es) && r.distance == Length(es);
    WalkIsClear(c, a, es, b);
  }

  lemma WalkHop(c: City, a: NodeID, es: seq<Edge>, b: NodeID, k: nat)
    requires Streets(c) && IsWalk(c, a, es, b) && k < |es|
    ensures EdgeBetween(c, NodeAt(a, es, k), NodeAt(a, es, k + 1)) == Some(es[k])
    ensures OpenHop(c, NodeAt(a, es, k), NodeAt(a, es, k + 1))
  {
    WalkEdge(c, a, es, b, k);
    var u := NodeAt(a, es, k);
    var i :| 0 <= i < |Out(c, u)| && Out(c, u)[i] == es[k];
    FirstToIs(Out(c, u), es[k].to, i);
  }

  /** Opening roads leaves every clear route clear. */
  lemma ReopenKeepsClear(c: City, e: Edge, route: seq<NodeID>, i: nat)
    requires Streets(c) && HasEdge(c, e) && Symmetric(c) && ClearFrom(c, route, i)
    ensures ClearFrom(BothWays(c, e, false), route, i)
  {
    forall k | i <= k < |route| - 1
      ensures OpenHop(BothWays(c, e, false), route[k], route[k + 1])
    {
      assert OpenHop(c, route[k], route[k + 1]);
      BothWaysEdge(c, e, false, route[k], route[k + 1]);
    }
  }
}
