/** A* over the road graph (internal/routing/astar.go). Nodes are closed once popped and never
    reopened, so exactness rests on a consistent heuristic. */
module Routing {
  import opened Roads
  import opened Squares

  datatype Route = Route(nodes: seq<NodeID>, distance: real)

  datatype Item = Item(node: NodeID, priority: real, seqNo: nat)

  /** Straight-line distance: the square root of the squared coordinate differences. */
  ghost predicate IsEuclid(euclid: (Point, Point) -> real)
  {
    forall p, q :: euclid(p, q) >= 0.0 &&
      euclid(p, q) * euclid(p, q) == (p.x - q.x) * (p.x - q.x) + (p.y - q.y) * (p.y - q.y)
  }

  /** Every road is at least as long as the straight line between its ends. */
  ghost predicate Metric(c: City, euclid: (Point, Point) -> real)
  {
    IsEuclid(euclid) &&
    forall n, k :: n in c.edges && 0 <= k < |c.edges[n]| ==>
      c.edges[n][k].weight >= euclid(At(c, n), At(c, c.edges[n][k].to))
  }

  function Heuristic(c: City, euclid: (Point, Point) -> real, goal: NodeID, n: NodeID): real
  {
    euclid(At(c, n), At(c, goal))
  }

  // ---------------------------------------------------------------------------------------------
  // The heuristic is consistent
  // ---------------------------------------------------------------------------------------------

  /** Cauchy-Schwarz in the plane: the dot product is bounded by the product of the lengths. */
  lemma DotBound(px: real, py: real, qx: real, qy: real, a: real, b: real)
    requires a >= 0.0 && b >= 0.0 && a * a == px * px + py * py && b * b == qx * qx + qy * qy
    ensures px * qx + py * qy <= a * b
  {
    var dot, cross := px * qx + py * qy, px * qy - py * qx;
    calc {
      (a * b) * (a * b);
      (a * a) * (b * b);
      (px * px + py * py) * (qx * qx + qy * qy);
      dot * dot + cross * cross;
    }
    assert cross * cross >= 0.0;
    if dot > a * b {
      assert a * b >= 0.0;
      SquareOrder(dot, a * b);
    }
  }

  lemma Triangle(euclid: (Point, Point) -> real, p: Point, q: Point, r: Point)
    requires IsEuclid(euclid)
    ensures euclid(p, r) <= euclid(p, q) + euclid(q, r)
  {
    var a, b, c := euclid(p, q), euclid(q, r), euclid(p, r);
    var px, py, qx, qy := p.x - q.x, p.y - q.y, q.x - r.x, q.y - r.y;
    DotBound(px, py, qx, qy, a, b);
    calc {
      c * c;
      (px + qx) * (px + qx) + (py + qy) * (py + qy);
      a * a + b * b + 2.0 * (px * qx + py * qy);
    <=
      a * a + b * b + 2.0 * (a * b);
      (a + b) * (a + b);
    }
    SquareOrder(c, a + b);
  }

  ghost predicate Consistent(c: City, h: NodeID -> real)
  {
    forall n, k :: n in c.edges && 0 <= k < |c.edges[n]| ==>
      h(n) <= c.edges[n][k].weight + h(c.edges[n][k].to) && c.edges[n][k].weight >= 0.0
  }

  /** The straight-line heuristic never drops qy more than an edge's weight along that edge. */
  lemma EuclidIsConsistent(c: City, euclid: (Point, Point) -> real, goal: NodeID)
    requires Metric(c, euclid)
    ensures Consistent(c, n => Heuristic(c, euclid, goal, n))
    ensures Heuristic(c, euclid, goal, goal) == 0.0
  {
    var h := n => Heuristic(c, euclid, goal, n);
    forall n, k | n in c.edges && 0 <= k < |c.edges[n]|
      ensures h(n) <= c.edges[n][k].weight + h(c.edges[n][k].to) && c.edges[n][k].weight >= 0.0
    {
      Triangle(euclid, At(c, n), At(c, c.edges[n][k].to), At(c, goal));
    }
    var g := At(c, goal);
    var d := euclid(g, g);
    assert d * d == 0.0;
    SquareOrder(d, 0.0);
  }

  // ---------------------------------------------------------------------------------------------
  // The search state and what the main loop keeps
  // ---------------------------------------------------------------------------------------------

  /** Items are compared by priority, then by insertion number (priorityQueue.Less). */
  predicate Before(a: Item, b: Item)
  {
    a.priority < b.priority || (a.priority == b.priority && a.seqNo <= b.seqNo)
  }

  /** Every node with a score has a walk of exactly that length from the start. */
  ghost predicate Scored(c: City, start: NodeID, g: map<NodeID, real>, walk: map<NodeID, seq<Edge>>)
  {
    g.Keys == walk.Keys && start in g && walk[start] == [] &&
    forall n :: n in g ==> n in c.nodes && IsWalk(c, start, walk[n], n) && Length(walk[n]) == g[n]
  }

  /** Every node but the start hangs off a visited node by its last edge. */
  ghost predicate Parented(start: NodeID, g: map<NodeID, real>, walk: map<NodeID, seq<Edge>>,
                           cameFrom: map<NodeID, NodeID>, visited: set<NodeID>)
  {
    g.Keys == walk.Keys &&
    forall n :: n in g && n != start ==>
      n in cameFrom && cameFrom[n] in visited && cameFrom[n] in g && walk[n] != [] &&
      walk[n][..|walk[n]| - 1] == walk[cameFrom[n]]
  }

  /** The first k edges out of u have been relaxed. */
  ghost predicate Relaxed(c: City, g: map<NodeID, real>, u: NodeID, k: nat)
  {
    u in g && forall i :: 0 <= i < k && i < |Out(c, u)| && !Out(c, u)[i].closed ==>
      Out(c, u)[i].to in g && g[Out(c, u)[i].to] <= g[u] + Out(c, u)[i].weight
  }

  ghost predicate AllRelaxed(c: City, g: map<NodeID, real>, done: set<NodeID>)
  {
    forall u :: u in done ==> Relaxed(c, g, u, |Out(c, u)|)
  }

  /** The score of u is the length of a shortest walk. */
  ghost predicate Shortest(c: City, start: NodeID, g: map<NodeID, real>, u: NodeID)
  {
    u in g && forall es :: IsWalk(c, start, es, u) ==> g[u] <= Length(es)
  }

  ghost predicate AllShortest(c: City, start: NodeID, g: map<NodeID, real>, visited: set<NodeID>)
  {
    forall u :: u in visited ==> Shortest(c, start, g, u)
  }

  ghost predicate Queued(open: seq<Item>, g: map<NodeID, real>, h: NodeID -> real, n: NodeID)
  {
    n in g && exists k :: 0 <= k < |open| && open[k].node == n && open[k].priority <= g[n] + h(n)
  }

  /** Every scored node is visited or waits in the queue; queue entries never promise too little. */
  ghost predicate Frontier(open: seq<Item>, g: map<NodeID, real>, h: NodeID -> real, visited: set<NodeID>)
  {
    (forall n :: n in g && n !in visited ==> Queued(open, g, h, n)) &&
    (forall k :: 0 <= k < |open| ==> open[k].node in g && open[k].priority >= g[open[k].node] + h(open[k].node))
  }

  /** Before the first unvisited node of a walk, scores are at most the length walked. */
  lemma {:induction false} PrefixBound(c: City, start: NodeID, g: map<NodeID, real>, visited: set<NodeID>,
                                       es: seq<Edge>, b: NodeID, k: nat)
    requires IsWalk(c, start, es, b) && k <= |es| && AllRelaxed(c, g, visited)
    requires start in g && g[start] == 0.0
    requires forall i :: 0 <= i < k ==> NodeAt(start, es, i) in visited
    ensures NodeAt(start, es, k) in g && g[NodeAt(start, es, k)] <= Length(es[..k])
  {
    if k > 0 {
      PrefixBound(c, start, g, visited, es, b, k - 1);
      LengthStep(es, k - 1);
      var u := NodeAt(start, es, k - 1);
      assert Relaxed(c, g, u, |Out(c, u)|);
      assert es[k - 1] in Out(c, u);
    }
  }

  lemma HeuristicEdge(c: City, h: NodeID -> real, u: NodeID, e: Edge)
    requires Consistent(c, h) && e in Out(c, u)
    ensures h(u) <= e.weight + h(e.to)
  {
    var i :| 0 <= i < |Out(c, u)| && Out(c, u)[i] == e;
    assert h(u) <= c.edges[u][i].weight + h(c.edges[u][i].to);
  }

  /** Along a walk a consistent heuristic drops by no more than the length walked. */
  lemma {:induction false} HeuristicAlong(c: City, h: NodeID -> real, start: NodeID, es: seq<Edge>, b: NodeID, k: nat,
                                          m: nat)
    requires Consistent(c, h) && IsWalk(c, start, es, b) && k <= m <= |es|
    ensures h(NodeAt(start, es, k)) + Length(es[..k]) <= h(NodeAt(start, es, m)) + Length(es[..m])
    decreases m
  {
    if k < m {
      WalkEdge(c, start, es, b, m - 1);
      hide Consistent, IsWalk, Out;
      HeuristicAlong(c, h, start, es, b, k, m - 1);
      LengthStep(es, m - 1);
      HeuristicEdge(c, h, NodeAt(start, es, m - 1), es[m - 1]);
    }
  }

  lemma FirstUnvisited(start: NodeID, es: seq<Edge>, visited: set<NodeID>) returns (k: nat)
    requires NodeAt(start, es, |es|) !in visited
    ensures k <= |es| && NodeAt(start, es, k) !in visited
    ensures forall i :: 0 <= i < k ==> NodeAt(start, es, i) in visited
  {
    k := 0;
    while NodeAt(start, es, k) in visited
      invariant k <= |es| && forall i :: 0 <= i < k ==> NodeAt(start, es, i) in visited
      decreases |es| - k
    {
      k := k + 1;
    }
  }

  /** The heart of A*: the least queue entry of an unvisited node already has its final score. */
  lemma PoppedIsShortest(c: City, h: NodeID -> real, start: NodeID, g: map<NodeID, real>, walk: map<NodeID, seq<Edge>>,
                         visited: set<NodeID>, open: seq<Item>, best: nat)
    requires Consistent(c, h) && Scored(c, start, g, walk) && AllRelaxed(c, g, visited) && Frontier(open, g, h, visited)
    requires IsLeast(open, best) && open[best].node !in visited
    ensures Shortest(c, start, g, open[best].node)
  {
    var cur := open[best];
    forall es | IsWalk(c, start, es, cur.node)
      ensures g[cur.node] <= Length(es)
    {
      var k := FirstUnvisited(start, es, visited);
      PrefixBound(c, start, g, visited, es, cur.node, k);
      HeuristicAlong(c, h, start, es, cur.node, k, |es|);
      assert es[..|es|] == es;
      assert Queued(open, g, h, NodeAt(start, es, k));
    }
  }

  lemma EmptyFrontier(g: map<NodeID, real>, h: NodeID -> real, visited: set<NodeID>, n: NodeID)
    requires Frontier([], g, h, visited) && n in g
    ensures n in visited
  {
  }

  /** An empty queue means nothing unvisited can be walked to. */
  lemma ExhaustedIsUnreachable(c: City, h: NodeID -> real, start: NodeID, g: map<NodeID, real>,
                               visited: set<NodeID>, goal: NodeID)
    requires AllRelaxed(c, g, visited) && Frontier([], g, h, visited) && goal !in visited
    requires start in g && g[start] == 0.0
    ensures !Reachable(c, start, goal)
  {
    forall es | IsWalk(c, start, es, goal)
      ensures false
    {
      var k := FirstUnvisited(start, es, visited);
      PrefixBound(c, start, g, visited, es, goal, k);
      EmptyFrontier(g, h, visited, NodeAt(start, es, k));
    }
  }

  // ---------------------------------------------------------------------------------------------
  // Relaxing one node's edges
  // ---------------------------------------------------------------------------------------------

  /** Everything the main loop keeps. */
  ghost predicate Searching(c: City, h: NodeID -> real, start: NodeID, g: map<NodeID, real>,
                            walk: map<NodeID, seq<Edge>>, cameFrom: map<NodeID, NodeID>, visited: set<NodeID>,
                            open: seq<Item>)
  {
    Scored(c, start, g, walk) && Parented(start, g, walk, cameFrom, visited) && AllRelaxed(c, g, visited) &&
    AllShortest(c, start, g, visited) && Frontier(open, g, h, visited) && visited <= c.nodes.Keys
  }

  /** The same in the middle of relaxing u's edges: u counts as visited, its first k edges are done. */
  ghost predicate Expanding(c: City, h: NodeID -> real, start: NodeID, g: map<NodeID, real>,
                            walk: map<NodeID, seq<Edge>>, cameFrom: map<NodeID, NodeID>, visited: set<NodeID>,
                            open: seq<Item>, u: NodeID, k: nat)
  {
    u in visited && Scored(c, start, g, walk) && Parented(start, g, walk, cameFrom, visited) &&
    AllRelaxed(c, g, visited - {u}) && Relaxed(c, g, u, k) &&
    AllShortest(c, start, g, visited) && Frontier(open, g, h, visited) && visited <= c.nodes.Keys
  }

  /** A relaxation never improves a visited node: its score is already final. */
  lemma VisitedNeverImproves(c: City, start: NodeID, g: map<NodeID, real>, walk: map<NodeID, seq<Edge>>,
                             visited: set<NodeID>, u: NodeID, e: Edge)
    requires Scored(c, start, g, walk) && AllShortest(c, start, g, visited)
    requires u in g && e in Out(c, u) && !e.closed && e.to in visited
    ensures e.to in g && g[e.to] <= g[u] + e.weight
  {
    WalkExtend(c, start, walk[u], u, e);
    assert Shortest(c, start, g, e.to);
  }

  lemma ImproveScored(c: City, start: NodeID, g: map<NodeID, real>, walk: map<NodeID, seq<Edge>>, u: NodeID, e: Edge)
    requires WellFormed(c) && Scored(c, start, g, walk)
    requires u in g && e in Out(c, u) && !e.closed && e.to != start
    ensures Scored(c, start, g[e.to := g[u] + e.weight], walk[e.to := walk[u] + [e]])
  {
    WalkExtend(c, start, walk[u], u, e);
  }

  lemma ImproveParented(start: NodeID, g: map<NodeID, real>, walk: map<NodeID, seq<Edge>>,
                        cameFrom: map<NodeID, NodeID>, visited: set<NodeID>, u: NodeID, e: Edge, d: real)
    requires Parented(start, g, walk, cameFrom, visited) && u in visited && u in g && e.to !in visited
    ensures Parented(start, g[e.to := d], walk[e.to := walk[u] + [e]], cameFrom[e.to := u], visited)
  {
    assert (walk[u] + [e])[..|walk[u] + [e]| - 1] == walk[u];
  }

  lemma ImproveRelaxed(c: City, g: map<NodeID, real>, v: NodeID, k: nat, n: NodeID, d: real)
    requires Relaxed(c, g, v, k) && n != v && (n in g ==> d <= g[n])
    ensures Relaxed(c, g[n := d], v, k)
  {
  }

  lemma ImproveFrontier(open: seq<Item>, g: map<NodeID, real>, h: NodeID -> real, visited: set<NodeID>,
                        n: NodeID, d: real, item: Item)
    requires Frontier(open, g, h, visited) && (n in g ==> d <= g[n])
    requires item.node == n && item.priority == d + h(n)
    ensures Frontier(open + [item], g[n := d], h, visited)
  {
    var g', open' := g[n := d], open + [item];
    forall m | m in g' && m !in visited
      ensures Queued(open', g', h, m)
    {
      if m == n {
        assert open'[|open|] == item;
      } else {
        assert Queued(open, g, h, m);
        var k :| 0 <= k < |open| && open[k].node == m && open[k].priority <= g[m] + h(m);
        assert open'[k] == open[k];
      }
    }
  }

  /** Only an unvisited node can be improved. */
  lemma ImprovedIsOpen(c: City, start: NodeID, g: map<NodeID, real>, walk: map<NodeID, seq<Edge>>,
                       visited: set<NodeID>, u: NodeID, e: Edge)
    requires Scored(c, start, g, walk) && AllShortest(c, start, g, visited)
    requires u in g && e in Out(c, u) && !e.closed && (e.to in g ==> g[u] + e.weight < g[e.to])
    ensures e.to !in visited
  {
    if e.to in visited {
      VisitedNeverImproves(c, start, g, walk, visited, u, e);
    }
  }

  lemma ImproveAllRelaxed(c: City, g: map<NodeID, real>, visited: set<NodeID>, u: NodeID, k: nat, e: Edge)
    requires AllRelaxed(c, g, visited - {u}) && Relaxed(c, g, u, k) && u in visited && u in g
    requires k < |Out(c, u)| && e == Out(c, u)[k]
    requires e.to !in visited && (e.to in g ==> g[u] + e.weight <= g[e.to])
    ensures AllRelaxed(c, g[e.to := g[u] + e.weight], visited - {u})
    ensures Relaxed(c, g[e.to := g[u] + e.weight], u, k + 1)
  {
    var d := g[u] + e.weight;
    forall v | v in visited - {u}
      ensures Relaxed(c, g[e.to := d], v, |Out(c, v)|)
    {
      ImproveRelaxed(c, g, v, |Out(c, v)|, e.to, d);
    }
    ImproveRelaxed(c, g, u, k, e.to, d);
  }

  lemma ImproveAllShortest(c: City, start: NodeID, g: map<NodeID, real>, visited: set<NodeID>, n: NodeID, d: real)
    requires AllShortest(c, start, g, visited) && n !in visited
    ensures AllShortest(c, start, g[n := d], visited)
  {
    forall v | v in visited
      ensures Shortest(c, start, g[n := d], v)
    {
      assert Shortest(c, start, g, v);
    }
  }

  /** Improving e.to keeps the invariant and relaxes edge k of u. */
  lemma ImproveKeeps(c: City, h: NodeID -> real, start: NodeID, g: map<NodeID, real>, walk: map<NodeID, seq<Edge>>,
                     cameFrom: map<NodeID, NodeID>, visited: set<NodeID>, open: seq<Item>, u: NodeID, k: nat,
                     e: Edge, item: Item)
    requires WellFormed(c) && g.Keys == walk.Keys && u in g
    requires Expanding(c, h, start, g, walk, cameFrom, visited, open, u, k) && start in visited
    requires k < |Out(c, u)| && e == Out(c, u)[k] && !e.closed && (e.to in g ==> g[u] + e.weight < g[e.to])
    requires item.node == e.to && item.priority == g[u] + e.weight + h(e.to)
    ensures Expanding(c, h, start, g[e.to := g[u] + e.weight], walk[e.to := walk[u] + [e]], cameFrom[e.to := u],
                      visited, open + [item], u, k + 1)
  {
    hide Scored, Parented, AllRelaxed, Relaxed, AllShortest, Frontier;
    ImprovedIsOpen(c, start, g, walk, visited, u, e);
    ImproveScored(c, start, g, walk, u, e);
    ImproveParented(start, g, walk, cameFrom, visited, u, e, g[u] + e.weight);
    ImproveFrontier(open, g, h, visited, e.to, g[u] + e.weight, item);
    ImproveAllRelaxed(c, g, visited, u, k, e);
    ImproveAllShortest(c, start, g, visited, e.to, g[u] + e.weight);
  }

  /** An edge that is closed or brings nothing is relaxed as it stands. */
  lemma SkipKeeps(c: City, h: NodeID -> real, start: NodeID, g: map<NodeID, real>, walk: map<NodeID, seq<Edge>>,
                  cameFrom: map<NodeID, NodeID>, visited: set<NodeID>, open: seq<Item>, u: NodeID, k: nat)
    requires Expanding(c, h, start, g, walk, cameFrom, visited, open, u, k) && k < |Out(c, u)| && u in g
    requires Out(c, u)[k].closed || (Out(c, u)[k].to in g && g[Out(c, u)[k].to] <= g[u] + Out(c, u)[k].weight)
    ensures Expanding(c, h, start, g, walk, cameFrom, visited, open, u, k + 1)
  {
  }

  /** The edge loop (astar.go lines 59-75). */
  method Expand(c: City, h: NodeID -> real, ghost start: NodeID, g0: map<NodeID, real>,
                ghost walk0: map<NodeID, seq<Edge>>, cameFrom0: map<NodeID, NodeID>, ghost visited: set<NodeID>,
                open0: seq<Item>, seq0: nat, u: NodeID)
    returns (g: map<NodeID, real>, ghost walk: map<NodeID, seq<Edge>>, cameFrom: map<NodeID, NodeID>,
             open: seq<Item>, seqNo: nat)
    requires WellFormed(c) && start in visited && u in g0 && g0.Keys == walk0.Keys
    requires Expanding(c, h, start, g0, walk0, cameFrom0, visited, open0, u, 0)
    ensures Expanding(c, h, start, g, walk, cameFrom, visited, open, u, |Out(c, u)|)
  {
    g, walk, cameFrom, open, seqNo := g0, walk0, cameFrom0, open0, seq0;
    var edges := Out(c, u);
    hide *;
    for k := 0 to |edges|
      invariant u in g && g.Keys == walk.Keys && edges == Out(c, u)
      invariant Expanding(c, h, start, g, walk, cameFrom, visited, open, u, k)
    {
      var e := edges[k];
      if e.closed {
        SkipKeeps(c, h, start, g, walk, cameFrom, visited, open, u, k);
        continue;
      }
      var tentative := g[u] + e.weight;
      if e.to !in g || tentative < g[e.to] {
        var item := Item(e.to, tentative + h(e.to), seqNo);
        ImproveKeeps(c, h, start, g, walk, cameFrom, visited, open, u, k, e, item);
        walk := walk[e.to := walk[u] + [e]];
        g := g[e.to := tentative];
        cameFrom := cameFrom[e.to := u];
        open := open + [item];
        seqNo := seqNo + 1;
      } else {
        SkipKeeps(c, h, start, g, walk, cameFrom, visited, open, u, k);
      }
    }
  }

  // ---------------------------------------------------------------------------------------------
  // The queue
  // ---------------------------------------------------------------------------------------------

  function WithoutItem(open: seq<Item>, k: nat): seq<Item>
    requires k < |open|
  {
    open[..k] + open[k + 1..]
  }

  /** open[k] comes before every other item. */
  ghost predicate IsLeast(open: seq<Item>, k: nat)
  {
    k < |open| && forall j :: 0 <= j < |open| ==> Before(open[k], open[j])
  }

  /** heap.Pop: takes out an item that comes before all others. */
  method PopLeast(open: seq<Item>) returns (k: nat, least: Item, rest: seq<Item>)
    requires open != []
    ensures IsLeast(open, k) && least == open[k] && rest == WithoutItem(open, k) && |rest| < |open|
  {
    var i := 0;
    for n := 1 to |open|
      invariant 0 <= i < |open|
      invariant forall j :: 0 <= j < n ==> Before(open[i], open[j])
    {
      if !Before(open[i], open[n]) { i := n; }
    }
    k, least, rest := i, open[i], WithoutItem(open, i);
  }

  /** Dropping the popped entry of a node that is, or now becomes, visited keeps the frontier. */
  lemma PopFrontier(open: seq<Item>, g: map<NodeID, real>, h: NodeID -> real, visited: set<NodeID>, k: nat)
    requires Frontier(open, g, h, visited) && k < |open|
    ensures Frontier(WithoutItem(open, k), g, h, visited + {open[k].node})
  {
    var rest := WithoutItem(open, k);
    assert forall j :: 0 <= j < k ==> rest[j] == open[j];
    assert forall j :: k <= j < |rest| ==> rest[j] == open[j + 1];
    forall n | n in g && n !in visited + {open[k].node}
      ensures Queued(rest, g, h, n)
    {
      assert Queued(open, g, h, n);
      var j :| 0 <= j < |open| && open[j].node == n && open[j].priority <= g[n] + h(n);
      assert rest[if j < k then j else j - 1] == open[j];
    }
  }

  // ---------------------------------------------------------------------------------------------
  // Reading the route back
  // ---------------------------------------------------------------------------------------------

  /** One step back along cameFrom drops the last edge of the recorded walk. */
  lemma ParentStep(c: City, start: NodeID, g: map<NodeID, real>, walk: map<NodeID, seq<Edge>>,
                   cameFrom: map<NodeID, NodeID>, visited: set<NodeID>, n: NodeID)
    requires Scored(c, start, g, walk) && Parented(start, g, walk, cameFrom, visited) && n in g
    ensures n in walk && (walk[n] == [] <==> n == start)
    ensures n != start ==>
      n in cameFrom && cameFrom[n] in g && cameFrom[n] in walk && walk[cameFrom[n]] == walk[n][..|walk[n]| - 1]
    ensures n == NodeAt(start, walk[n], |walk[n]|)
  {
    assert IsWalk(c, start, walk[n], n);
  }

  /** Walking cameFrom back from n stays on the recorded walk to n. */
  lemma {:induction false} WalkOfPrefix(c: City, start: NodeID, g: map<NodeID, real>, walk: map<NodeID, seq<Edge>>,
                                        cameFrom: map<NodeID, NodeID>, visited: set<NodeID>, n: NodeID, k: nat)
    requires Scored(c, start, g, walk) && Parented(start, g, walk, cameFrom, visited)
    requires n in g && n in walk && k <= |walk[n]|
    ensures var m := NodeAt(start, walk[n], k); m in g && m in walk && walk[m] == walk[n][..k]
    decreases |walk[n]|
  {
    hide Scored, Parented;
    var w := walk[n];
    ParentStep(c, start, g, walk, cameFrom, visited, n);
    if k == |w| {
      assert w[..k] == w;
    } else {
      var m := cameFrom[n];
      WalkOfPrefix(c, start, g, walk, cameFrom, visited, m, k);
      assert w[..|w| - 1][..k] == w[..k];
    }
  }

  /** The recorded walks visit no node twice. */
  lemma WalkIsSimple(c: City, start: NodeID, g: map<NodeID, real>, walk: map<NodeID, seq<Edge>>,
                     cameFrom: map<NodeID, NodeID>, visited: set<NodeID>, n: NodeID)
    requires Scored(c, start, g, walk) && Parented(start, g, walk, cameFrom, visited) && n in g && n in walk
    ensures Distinct(NodesOf(start, walk[n]))
  {
    hide Scored, Parented;
    var w := walk[n];
    forall i, j | 0 <= i < j <= |w|
      ensures NodeAt(start, w, i) != NodeAt(start, w, j)
    {
      WalkOfPrefix(c, start, g, walk, cameFrom, visited, n, i);
      WalkOfPrefix(c, start, g, walk, cameFrom, visited, n, j);
      assert |w[..i]| != |w[..j]|;
    }
  }

  predicate Distinct(s: seq<NodeID>)
  {
    forall i, j :: 0 <= i < j < |s| ==> s[i] != s[j]
  }

  /** In-place reversal (astar.go lines 87-90). */
  method Reverse(path: array<NodeID>)
    modifies path
    ensures forall k :: 0 <= k < path.Length ==> path[k] == old(path[path.Length - 1 - k])
  {
    var i, j := 0, path.Length - 1;
    while i < j
      invariant 0 <= i <= path.Length && j == path.Length - 1 - i && i <= j + 1
      invariant forall k :: 0 <= k < i ==>
        path[k] == old(path[path.Length - 1 - k]) && path[path.Length - 1 - k] == old(path[k])
      invariant forall k :: i <= k <= j ==> path[k] == old(path[k])
    {
      path[i], path[j] := path[j], path[i];
      i, j := i + 1, j - 1;
    }
  }

  method Reversed(back: seq<NodeID>) returns (r: seq<NodeID>)
    ensures |r| == |back| && forall k :: 0 <= k < |r| ==> r[k] == back[|back| - 1 - k]
  {
    var path := new NodeID[|back|](i requires 0 <= i < |back| => back[i]);
    Reverse(path);
    r := path[..];
  }

  lemma ParentIsPrevious(c: City, start: NodeID, g: map<NodeID, real>, walk: map<NodeID, seq<Edge>>,
                         cameFrom: map<NodeID, NodeID>, visited: set<NodeID>, n: NodeID, k: nat)
    requires Scored(c, start, g, walk) && Parented(start, g, walk, cameFrom, visited)
    requires n in g && n in walk && k <= |walk[n]|
    ensures NodeAt(start, walk[n], k) == start <==> k == 0
    ensures k > 0 ==> NodeAt(start, walk[n], k) in cameFrom
    ensures k > 0 ==> cameFrom[NodeAt(start, walk[n], k)] == NodeAt(start, walk[n], k - 1)
  {
    hide Scored, Parented;
    var w := walk[n];
    var m := NodeAt(start, w, k);
    WalkOfPrefix(c, start, g, walk, cameFrom, visited, n, k);
    ParentStep(c, start, g, walk, cameFrom, visited, m);
    if k > 0 {
      ParentStep(c, start, g, walk, cameFrom, visited, cameFrom[m]);
      assert w[..k][..k - 1] == w[..k - 1];
      assert NodeAt(start, w[..k - 1], k - 1) == NodeAt(start, w, k - 1);
    }
  }

  /** Follows cameFrom back to the start and reverses what it collected (astar.go lines 81-92). */
  method Reconstruct(ghost c: City, cameFrom: map<NodeID, NodeID>, g: map<NodeID, real>, start: NodeID, goal: NodeID,
                     ghost walk: map<NodeID, seq<Edge>>, ghost visited: set<NodeID>)
    returns (r: Route)
    requires Scored(c, start, g, walk) && Parented(start, g, walk, cameFrom, visited) && goal in g && goal in walk
    ensures r.nodes == NodesOf(start, walk[goal]) && r.distance == g[goal]
  {
    hide Scored, Parented;
    var back := [goal];
    ghost var w := walk[goal];
    ghost var k := |w|;
    ParentStep(c, start, g, walk, cameFrom, visited, goal);
    ParentIsPrevious(c, start, g, walk, cameFrom, visited, goal, k);
    while back[|back| - 1] != start
      invariant 0 <= k <= |w| && |back| == |w| - k + 1
      invariant back[|back| - 1] == NodeAt(start, w, k) && (back[|back| - 1] == start <==> k == 0)
      invariant forall i :: 0 <= i < |back| ==> back[i] == NodeAt(start, w, |w| - i)
      decreases k
    {
      ParentIsPrevious(c, start, g, walk, cameFrom, visited, goal, k);
      back := back + [cameFrom[back[|back| - 1]]];
      k := k - 1;
      ParentIsPrevious(c, start, g, walk, cameFrom, visited, goal, k);
    }
    var nodes := Reversed(back);
    r := Route(nodes, g[goal]);
  }

  // ---------------------------------------------------------------------------------------------
  // FindRoute
  // ---------------------------------------------------------------------------------------------

  /** r lists the nodes of an open walk from a to b and its length. */
  ghost predicate IsRoute(c: City, a: NodeID, b: NodeID, r: Route)
  {
    exists es :: IsWalk(c, a, es, b) && r.nodes == NodesOf(a, es) && r.distance == Length(es)
  }

  /** ... visits no node twice and no open walk is shorter. */
  ghost predicate IsBestRoute(c: City, a: NodeID, b: NodeID, r: Route)
  {
    IsRoute(c, a, b, r) && Distinct(r.nodes) && forall es :: IsWalk(c, a, es, b) ==> r.distance <= Length(es)
  }

  lemma {:induction false} LengthNonNegative(c: City, a: NodeID, es: seq<Edge>, b: NodeID)
    requires IsWalk(c, a, es, b)
    requires forall n, k :: n in c.edges && 0 <= k < |c.edges[n]| ==> c.edges[n][k].weight >= 0.0
    ensures Length(es) >= 0.0
  {
    if es != [] {
      var k := |es| - 1;
      WalkPrefix(c, a, es, b, k);
      LengthNonNegative(c, a, es[..k], NodeAt(a, es, k));
      assert es[k] in Out(c, NodeAt(a, es, k));
    }
  }

  lemma StandingStill(c: City, euclid: (Point, Point) -> real, a: NodeID)
    requires Metric(c, euclid)
    ensures IsBestRoute(c, a, a, Route([a], 0.0)) && Reachable(c, a, a)
  {
    assert IsWalk(c, a, [], a) && NodesOf(a, []) == [a];
    forall es | IsWalk(c, a, es, a)
      ensures 0.0 <= Length(es)
    {
      LengthNonNegative(c, a, es, a);
    }
  }

  /** A walk that leaves its start starts at a node of the city and ends at one. */
  lemma WalkEndsKnown(c: City, a: NodeID, es: seq<Edge>, b: NodeID)
    requires WellFormed(c) && IsWalk(c, a, es, b) && a != b
    ensures a in c.nodes && b in c.nodes
  {
    assert es[0] in Out(c, NodeAt(a, es, 0));
    assert es[|es| - 1] in Out(c, NodeAt(a, es, |es| - 1));
  }

  lemma StartSearching(c: City, h: NodeID -> real, start: NodeID)
    requires start in c.nodes
    ensures Searching(c, h, start, map[start := 0.0], map[start := []], map[], {}, [Item(start, h(start), 0)])
  {
    var g: map<NodeID, real> := map[start := 0.0];
    var open := [Item(start, h(start), 0)];
    assert open[0].node == start;
    assert Queued(open, g, h, start);
  }

  lemma PoppedIsKnown(c: City, h: NodeID -> real, start: NodeID, g: map<NodeID, real>, walk: map<NodeID, seq<Edge>>,
                      cameFrom: map<NodeID, NodeID>, visited: set<NodeID>, open: seq<Item>, k: nat)
    requires Searching(c, h, start, g, walk, cameFrom, visited, open) && k < |open|
    ensures open[k].node in g && open[k].node in c.nodes && g.Keys == walk.Keys
  {
  }

  /** Popping a stale entry of a visited node changes nothing. */
  lemma PopStaleKeeps(c: City, h: NodeID -> real, start: NodeID, g: map<NodeID, real>, walk: map<NodeID, seq<Edge>>,
                      cameFrom: map<NodeID, NodeID>, visited: set<NodeID>, open: seq<Item>, k: nat)
    requires Searching(c, h, start, g, walk, cameFrom, visited, open) && k < |open| && open[k].node in visited
    ensures Searching(c, h, start, g, walk, cameFrom, visited, WithoutItem(open, k))
  {
    hide Frontier, Parented, Scored, AllRelaxed, AllShortest, WithoutItem;
    PopFrontier(open, g, h, visited, k);
    assert visited + {open[k].node} == visited;
  }

  /** Popping the least entry of an unvisited node finds its final score and starts relaxing its edges. */
  lemma PopNewKeeps(c: City, h: NodeID -> real, start: NodeID, g: map<NodeID, real>, walk: map<NodeID, seq<Edge>>,
                    cameFrom: map<NodeID, NodeID>, visited: set<NodeID>, open: seq<Item>, k: nat)
    requires Consistent(c, h) && Searching(c, h, start, g, walk, cameFrom, visited, open) && IsLeast(open, k)
    requires open[k].node !in visited && open[k].node in c.nodes
    ensures Shortest(c, start, g, open[k].node)
    ensures Expanding(c, h, start, g, walk, cameFrom, visited + {open[k].node}, WithoutItem(open, k), open[k].node, 0)
  {
    hide Frontier, Parented, Scored, Shortest, Relaxed, AllRelaxed, AllShortest, Before, Consistent, WithoutItem;
    PopFrontier(open, g, h, visited, k);
    PoppedIsShortest(c, h, start, g, walk, visited, open, k);
    PopParented(start, g, walk, cameFrom, visited, open[k].node);
    PopRelaxed(c, start, g, visited, open[k].node);
    assert visited + {open[k].node} - {open[k].node} == visited;
  }

  lemma PopRelaxed(c: City, start: NodeID, g: map<NodeID, real>, visited: set<NodeID>, n: NodeID)
    requires AllShortest(c, start, g, visited) && Shortest(c, start, g, n)
    ensures AllShortest(c, start, g, visited + {n}) && Relaxed(c, g, n, 0)
  {
  }

  lemma PopParented(start: NodeID, g: map<NodeID, real>, walk: map<NodeID, seq<Edge>>,
                    cameFrom: map<NodeID, NodeID>, visited: set<NodeID>, n: NodeID)
    requires Parented(start, g, walk, cameFrom, visited)
    ensures Parented(start, g, walk, cameFrom, visited + {n})
  {
  }

  lemma ExpandedIsSearching(c: City, h: NodeID -> real, start: NodeID, g: map<NodeID, real>,
                            walk: map<NodeID, seq<Edge>>, cameFrom: map<NodeID, NodeID>, visited: set<NodeID>,
                            open: seq<Item>, u: NodeID)
    requires Expanding(c, h, start, g, walk, cameFrom, visited, open, u, |Out(c, u)|)
    ensures Searching(c, h, start, g, walk, cameFrom, visited, open)
  {
  }

  /** The first node popped is the start. */
  lemma StartIsVisited(c: City, h: NodeID -> real, start: NodeID, g: map<NodeID, real>, walk: map<NodeID, seq<Edge>>,
                       cameFrom: map<NodeID, NodeID>, visited: set<NodeID>, open: seq<Item>, u: NodeID)
    requires Scored(c, start, g, walk) && Parented(start, g, walk, cameFrom, visited)
    requires u in g && u !in visited
    requires visited == {} || start in visited
    ensures start in visited + {u}
  {
  }

  lemma FoundIsBest(c: City, start: NodeID, g: map<NodeID, real>, walk: map<NodeID, seq<Edge>>,
                    cameFrom: map<NodeID, NodeID>, visited: set<NodeID>, goal: NodeID, r: Route)
    requires Scored(c, start, g, walk) && Parented(start, g, walk, cameFrom, visited)
    requires goal in g && goal in walk && Shortest(c, start, g, goal)
    requires r.nodes == NodesOf(start, walk[goal]) && r.distance == g[goal]
    ensures IsBestRoute(c, start, goal, r) && Reachable(c, start, goal)
  {
    WalkIsSimple(c, start, g, walk, cameFrom, visited, goal);
    assert IsWalk(c, start, walk[goal], goal);
  }

  /** Shortest open route from start to goal (astar.go lines 21-79). */
  method FindRoute(c: City, euclid: (Point, Point) -> real, start: NodeID, goal: NodeID) returns (r: Option<Route>)
    requires WellFormed(c) && Metric(c, euclid)
    ensures r.Some? <==> Reachable(c, start, goal)
    ensures r.Some? ==> IsBestRoute(c, start, goal, r.value)
  {
    if start == goal {
      StandingStill(c, euclid, start);
      return Some(Route([start], 0.0));
    }
    if start !in c.nodes || goal !in c.nodes {
      forall es | IsWalk(c, start, es, goal)
        ensures false
      {
        WalkEndsKnown(c, start, es, goal);
      }
      return None;
    }
    r := Search(c, euclid, start, goal);
  }

  /** The main loop of FindRoute (astar.go lines 32-78). */
  method Search(c: City, euclid: (Point, Point) -> real, start: NodeID, goal: NodeID) returns (r: Option<Route>)
    requires WellFormed(c) && Metric(c, euclid) && start in c.nodes
    ensures r.Some? <==> Reachable(c, start, goal)
    ensures r.Some? ==> IsBestRoute(c, start, goal, r.value)
  {
    var h := n => Heuristic(c, euclid, goal, n);
    EuclidIsConsistent(c, euclid, goal);
    var g: map<NodeID, real> := map[start := 0.0];
    var cameFrom: map<NodeID, NodeID> := map[];
    var open := [Item(start, h(start), 0)];
    var visited: set<NodeID> := {};
    var seqNo := 1;
    ghost var walk: map<NodeID, seq<Edge>> := map[start := []];
    StartSearching(c, h, start);
    hide *;
    while open != []
      invariant Searching(c, h, start, g, walk, cameFrom, visited, open)
      invariant (visited == {} || start in visited) && visited <= c.nodes.Keys && goal !in visited
      decreases |c.nodes.Keys - visited|, |open|
    {
      var k, cur, rest := PopLeast(open);
      PoppedIsKnown(c, h, start, g, walk, cameFrom, visited, open, k);
      if cur.node in visited {
        PopStaleKeeps(c, h, start, g, walk, cameFrom, visited, open, k);
        open := rest;
        continue;
      }
      PopNewKeeps(c, h, start, g, walk, cameFrom, visited, open, k);
      if cur.node == goal {
        SearchParts(c, h, start, g, walk, cameFrom, visited, open);
        var route := Reconstruct(c, cameFrom, g, start, goal, walk, visited);
        FoundIsBest(c, start, g, walk, cameFrom, visited, goal, route);
        return Some(route);
      }
      SearchParts(c, h, start, g, walk, cameFrom, visited, open);
      StartIsVisited(c, h, start, g, walk, cameFrom, visited, open, cur.node);
      Shrinks(c.nodes.Keys, visited, cur.node);
      visited := visited + {cur.node};
      g, walk, cameFrom, open, seqNo := Expand(c, h, start, g, walk, cameFrom, visited, rest, seqNo, cur.node);
      ExpandedIsSearching(c, h, start, g, walk, cameFrom, visited, open, cur.node);
    }
    SearchParts(c, h, start, g, walk, cameFrom, visited, open);
    ExhaustedIsUnreachable(c, h, start, g, visited, goal);
    r := None;
  }

  lemma SearchParts(c: City, h: NodeID -> real, start: NodeID, g: map<NodeID, real>, walk: map<NodeID, seq<Edge>>,
                    cameFrom: map<NodeID, NodeID>, visited: set<NodeID>, open: seq<Item>)
    requires Searching(c, h, start, g, walk, cameFrom, visited, open)
    ensures Scored(c, start, g, walk) && Parented(start, g, walk, cameFrom, visited)
    ensures AllRelaxed(c, g, visited) && Frontier(open, g, h, visited)
    ensures g.Keys == walk.Keys && start in g && g[start] == 0.0
  {
    assert IsWalk(c, start, walk[start], start);
  }

  lemma Shrinks(all: set<NodeID>, visited: set<NodeID>, n: NodeID)
    requires n in all && n !in visited
    ensures |all - (visited + {n})| < |all - visited|
  {
    assert all - (visited + {n}) == (all - visited) - {n};
  }
}
