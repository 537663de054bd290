/** The generated grid city (internal/city/generate.go). */
module Generate {
  import opened Squares
  import opened Roads
  import opened Routing
  import opened Closures
  import opened Travel
  import opened Scenes
  import opened Trips

  /** Size and shape of the grid; jitter stands for the random numbers between -1 and 1 drawn for each
      intersection. */
  datatype Config = Config(rows: nat, cols: nat, spacing: real, fraction: real, jitter: (nat, nat) -> Point)

  ghost predicate Drawn(g: Config)
  {
    g.spacing > 0.0 && 0.0 <= g.fraction &&
    forall r, c :: -1.0 <= g.jitter(r, c).x <= 1.0 && -1.0 <= g.jitter(r, c).y <= 1.0
  }

  predicate InGrid(g: Config, n: NodeID) { n.row < g.rows && n.col < g.cols }

  /** The coordinates of an intersection: its lattice point, swayed by the jitter (lines 48-55). */
  function Place(g: Config, n: NodeID): Point
  {
    var j := g.jitter(n.row, n.col);
    Point(Lattice(n.col, g.spacing) + Swayed(j.x, g), Lattice(n.row, g.spacing) + Swayed(j.y, g))
  }

  function Lattice(n: nat, spacing: real): real { n as real * spacing }

  function Swayed(x: real, g: Config): real { Part(x, Sway(g)) }

  /** How far jitter can move an intersection. */
  function Sway(g: Config): real { Part(g.fraction, g.spacing) }

  function Part(f: real, s: real): real { f * s }

  /** Neighbours in a row or in a column. */
  predicate Adjacent(a: NodeID, b: NodeID)
  {
    (a.row == b.row && (a.col + 1 == b.col || b.col + 1 == a.col)) ||
    (a.col == b.col && (a.row + 1 == b.row || b.row + 1 == a.row))
  }

  function Road(nodes: map<NodeID, Point>, euclid: (Point, Point) -> real, a: NodeID, b: NodeID): Edge
    requires a in nodes && b in nodes
  {
    Edge(EdgeID(a, b), a, b, euclid(nodes[a], nodes[b]), false)
  }

  type Pairs = iset<(NodeID, NodeID)>

  /** The adjacency lists hold exactly these roads, each once. */
  ghost predicate Laid(nodes: map<NodeID, Point>, euclid: (Point, Point) -> real, edges: map<NodeID, seq<Edge>>,
                       done: Pairs)
  {
    edges.Keys <= nodes.Keys &&
    (forall n, i :: n in edges && 0 <= i < |edges[n]| ==>
     IsRoad(nodes, euclid, n, edges[n][i]) && (n, edges[n][i].to) in done) &&
    (forall p :: p in done ==> Listed(edges, p.0, p.1)) &&
    (forall n, i, j :: n in edges && 0 <= i < j < |edges[n]| ==> edges[n][i].to != edges[n][j].to)
  }

  ghost predicate IsRoad(nodes: map<NodeID, Point>, euclid: (Point, Point) -> real, n: NodeID, e: Edge)
  {
    n in nodes && e.to in nodes && e == Road(nodes, euclid, n, e.to)
  }

  ghost predicate Listed(edges: map<NodeID, seq<Edge>>, a: NodeID, b: NodeID)
  {
    a in edges && exists i :: 0 <= i < |edges[a]| && edges[a][i].to == b
  }

  function Appended(edges: map<NodeID, seq<Edge>>, n: NodeID, e: Edge): map<NodeID, seq<Edge>>
  {
    edges[n := (if n in edges then edges[n] else []) + [e]]
  }

  /** addEdge (lines 59-65). */
  lemma LayOne(nodes: map<NodeID, Point>, euclid: (Point, Point) -> real, edges: map<NodeID, seq<Edge>>, done: Pairs,
               a: NodeID, b: NodeID)
    requires Laid(nodes, euclid, edges, done) && a in nodes && b in nodes && (a, b) !in done
    ensures Laid(nodes, euclid, Appended(edges, a, Road(nodes, euclid, a, b)), done + iset{(a, b)})
  {
    var e := Road(nodes, euclid, a, b);
    var edges' := Appended(edges, a, e);
    forall p | p in done + iset{(a, b)}
      ensures Listed(edges', p.0, p.1)
    {
      if p in done {
        assert Listed(edges, p.0, p.1);
        var i :| 0 <= i < |edges[p.0]| && edges[p.0][i].to == p.1;
        assert edges'[p.0][i].to == p.1;
      } else {
        assert edges'[a][|edges'[a]| - 1] == e;
      }
    }
  }

  /** The roads between the cells visited so far and their right and lower neighbours, both ways. */
  ghost function Visited(g: Config, r: nat, c: nat): Pairs
  {
    iset a: NodeID, b: NodeID | InGrid(g, a) && InGrid(g, b) && Adjacent(a, b) && Before(Lesser(a, b), r, c) :: (a, b)
  }

  ghost predicate Before(n: NodeID, r: nat, c: nat)
  {
    n.row < r || (n.row == r && n.col < c)
  }

  /** The upper or left one of two neighbours, whose visit lays the road. */
  ghost function Lesser(a: NodeID, b: NodeID): NodeID
  {
    if a.row < b.row || a.col < b.col then a else b
  }

  ghost function Everywhere(g: Config): Pairs
  {
    iset a: NodeID, b: NodeID | InGrid(g, a) && InGrid(g, b) && Adjacent(a, b) :: (a, b)
  }

  /** Visiting one cell adds the roads to its right and lower neighbours. */
  lemma VisitedStep(g: Config, r: nat, c: nat)
    requires r < g.rows && c < g.cols
    ensures var n, right, down := NodeID(r, c), NodeID(r, c + 1), NodeID(r + 1, c);
      Visited(g, r, c + 1) ==
        Visited(g, r, c) + (if c + 1 < g.cols then iset{(n, right), (right, n)} else iset{}) +
        (if r + 1 < g.rows then iset{(n, down), (down, n)} else iset{})
  {
  }

  lemma VisitedRow(g: Config, r: nat)
    ensures Visited(g, r, g.cols) == Visited(g, r + 1, 0)
  {
  }

  lemma VisitedAll(g: Config)
    ensures Visited(g, 0, 0) == iset{} && Visited(g, g.rows, 0) == Everywhere(g)
  {
  }

  /** The city a configuration stands for. */
  ghost predicate IsGrid(g: Config, euclid: (Point, Point) -> real, c: City)
  {
    (forall n :: n in c.nodes <==> InGrid(g, n)) && (forall n :: n in c.nodes ==> c.nodes[n] == Place(g, n)) &&
    Laid(c.nodes, euclid, c.edges, Everywhere(g))
  }

  /** GenerateGrid (lines 36-89). */
  method GenerateGrid(g: Config, euclid: (Point, Point) -> real) returns (c: City)
    ensures IsGrid(g, euclid, c)
  {
    var nodes := GridNodes(g);
    hide Laid, Visited, Everywhere, Road, Appended;
    var edges: map<NodeID, seq<Edge>> := map[];
    VisitedAll(g);
    LaidNothing(nodes, euclid);
    for r := 0 to g.rows
      invariant Laid(nodes, euclid, edges, Visited(g, r, 0))
    {
      for c := 0 to g.cols
        invariant Laid(nodes, euclid, edges, Visited(g, r, c))
      {
        edges := VisitCell(g, euclid, nodes, edges, r, c);
      }
      VisitedRow(g, r);
    }
    c := City(nodes, edges);
  }

  lemma LaidNothing(nodes: map<NodeID, Point>, euclid: (Point, Point) -> real)
    ensures Laid(nodes, euclid, map[], iset{})
  {
  }

  /** Lines 69-79. */
  method VisitCell(g: Config, euclid: (Point, Point) -> real, nodes: map<NodeID, Point>, edges0: map<NodeID, seq<Edge>>,
                   r: nat, c: nat) returns (edges: map<NodeID, seq<Edge>>)
    requires r < g.rows && c < g.cols && (forall n :: n in nodes <==> InGrid(g, n))
    requires Laid(nodes, euclid, edges0, Visited(g, r, c))
    ensures Laid(nodes, euclid, edges, Visited(g, r, c + 1))
  {
    hide Laid, Road, Appended;
    edges := edges0;
    var id := NodeID(r, c);
    ghost var done := Visited(g, r, c);
    if c + 1 < g.cols {
      var right := NodeID(r, c + 1);
      LayOne(nodes, euclid, edges, done, id, right);
      edges := Appended(edges, id, Road(nodes, euclid, id, right));
      LayOne(nodes, euclid, edges, done + iset{(id, right)}, right, id);
      edges := Appended(edges, right, Road(nodes, euclid, right, id));
      done := done + iset{(id, right)} + iset{(right, id)};
    }
    if r + 1 < g.rows {
      var down := NodeID(r + 1, c);
      LayOne(nodes, euclid, edges, done, id, down);
      edges := Appended(edges, id, Road(nodes, euclid, id, down));
      LayOne(nodes, euclid, edges, done + iset{(id, down)}, down, id);
      edges := Appended(edges, down, Road(nodes, euclid, down, id));
      done := done + iset{(id, down)} + iset{(down, id)};
    }
    VisitedStep(g, r, c);
    assert done == Visited(g, r, c + 1);
  }

  /** Lines 46-57. */
  method GridNodes(g: Config) returns (nodes: map<NodeID, Point>)
    ensures forall n :: n in nodes <==> InGrid(g, n)
    ensures forall n :: n in nodes ==> nodes[n] == Place(g, n)
  {
    hide Place;
    nodes := map[];
    for r := 0 to g.rows
      invariant forall n :: n in nodes <==> InGrid(g, n) && n.row < r
      invariant forall n :: n in nodes ==> nodes[n] == Place(g, n)
    {
      for c := 0 to g.cols
        invariant forall n :: n in nodes <==> InGrid(g, n) && (n.row < r || (n.row == r && n.col < c))
        invariant forall n :: n in nodes ==> nodes[n] == Place(g, n)
      {
        nodes := nodes[NodeID(r, c) := Place(g, NodeID(r, c))];
      }
    }
  }

  // ---------------------------------------------------------------------------------------------
  // What the simulation relies on
  // ---------------------------------------------------------------------------------------------

  /** One road each way between neighbours, none elsewhere, all open. */
  lemma GridRoads(g: Config, euclid: (Point, Point) -> real, c: City, a: NodeID, b: NodeID)
    requires IsGrid(g, euclid, c)
    ensures EdgeBetween(c, a, b).Some? <==> InGrid(g, a) && InGrid(g, b) && Adjacent(a, b)
    ensures EdgeBetween(c, a, b).Some? ==>
      a in c.nodes && b in c.nodes && EdgeBetween(c, a, b).value == Road(c.nodes, euclid, a, b)
  {
    if EdgeBetween(c, a, b).Some? {
      var i := FirstToFound(Out(c, a), b);
      assert IsRoad(c.nodes, euclid, a, c.edges[a][i]) && (a, c.edges[a][i].to) in Everywhere(g);
    } else if InGrid(g, a) && InGrid(g, b) && Adjacent(a, b) {
      var p := (a, b);
      assert p in Everywhere(g);
      assert Listed(c.edges, p.0, p.1);
      var i :| 0 <= i < |c.edges[a]| && c.edges[a][i].to == b;
      FirstToIs(c.edges[a], b, i);
    }
  }

  lemma GridStreets(g: Config, euclid: (Point, Point) -> real, c: City)
    requires IsGrid(g, euclid, c)
    ensures Streets(c)
  {
    forall n, i | n in c.edges && 0 <= i < |c.edges[n]|
      ensures IsRoad(c.nodes, euclid, n, c.edges[n][i]) && (n, c.edges[n][i].to) in Everywhere(g)
    {
    }
  }

  lemma GridSymmetric(g: Config, euclid: (Point, Point) -> real, c: City)
    requires IsGrid(g, euclid, c)
    ensures Symmetric(c)
  {
    hide IsGrid, EdgeBetween, InGrid;
    forall a, b | EdgeBetween(c, a, b).Some?
      ensures EdgeBetween(c, b, a).Some? && EdgeBetween(c, b, a).value.closed == EdgeBetween(c, a, b).value.closed
    {
      GridRoads(g, euclid, c, a, b);
      GridRoads(g, euclid, c, b, a);
    }
  }

  lemma GridMetric(g: Config, euclid: (Point, Point) -> real, c: City)
    requires IsGrid(g, euclid, c) && IsEuclid(euclid)
    ensures Metric(c, euclid)
  {
    hide IsEuclid;
    forall n, k | n in c.edges && 0 <= k < |c.edges[n]|
      ensures c.edges[n][k].weight >= euclid(At(c, n), At(c, c.edges[n][k].to))
    {
      assert IsRoad(c.nodes, euclid, n, c.edges[n][k]);
    }
  }

  ghost function Distance(p: real): real { if p < 0.0 then -p else p }

  /** A distance lies between the larger coordinate difference and the sum of both. */
  lemma EuclidWithin(euclid: (Point, Point) -> real, p: Point, q: Point, low: real, high: real)
    requires IsEuclid(euclid) && low >= 0.0
    requires low <= Distance(p.x - q.x) || low <= Distance(p.y - q.y)
    requires Distance(p.x - q.x) + Distance(p.y - q.y) <= high
    ensures low <= euclid(p, q) <= high
  {
    var x, y, d := Distance(p.x - q.x), Distance(p.y - q.y), euclid(p, q);
    assert d * d == x * x + y * y;
    assert x * y >= 0.0;
    SumSquared(x, y);
    SquareOrder(d, x + y);
    SquareOrder(x, d);
    SquareOrder(y, d);
  }

  lemma SumSquared(x: real, y: real)
    requires x >= 0.0 && y >= 0.0
    ensures (x + y) * (x + y) >= x * x + y * y
  {
    assert (x + y) * (x + y) == x * x + 2.0 * (x * y) + y * y;
    assert x * y >= 0.0;
  }

  lemma SwayKnown(g: Config)
    requires Drawn(g)
    ensures Sway(g) >= 0.0
  {
  }

  lemma ScaledBelow(x: real, w: real)
    requires x <= 1.0 && w >= 0.0
    ensures Part(x, w) <= w
  {
    var below := 1.0 - x;
    assert below * w >= 0.0;
  }

  lemma ScaledAbove(x: real, w: real)
    requires -1.0 <= x && w >= 0.0
    ensures -w <= Part(x, w)
  {
    var above := x + 1.0;
    assert above * w >= 0.0;
  }

  lemma SwayedWithin(x: real, g: Config)
    requires -1.0 <= x <= 1.0 && Sway(g) >= 0.0
    ensures -Sway(g) <= Swayed(x, g) <= Sway(g)
  {
    hide Part, Sway;
    ScaledBelow(x, Sway(g));
    ScaledAbove(x, Sway(g));
  }

  /** An intersection is no further than the sway from its lattice point, in each coordinate. */
  lemma PlaceWithin(g: Config, n: NodeID)
    requires Drawn(g)
    ensures Sway(g) >= 0.0
    ensures -Sway(g) <= Place(g, n).x - Lattice(n.col, g.spacing) <= Sway(g)
    ensures -Sway(g) <= Place(g, n).y - Lattice(n.row, g.spacing) <= Sway(g)
  {
    hide Sway, Swayed, Lattice;
    var j := g.jitter(n.row, n.col);
    SwayKnown(g);
    SwayedWithin(j.x, g);
    SwayedWithin(j.y, g);
  }

  lemma LatticeStep(m: nat, n: nat, spacing: real)
    ensures m + 1 == n ==> Lattice(n, spacing) == Lattice(m, spacing) + spacing
    ensures n + 1 == m ==> Lattice(m, spacing) == Lattice(n, spacing) + spacing
  {
    assert m + 1 == n ==> n as real == m as real + 1.0;
    assert n + 1 == m ==> m as real == n as real + 1.0;
  }

  /** Neighbours are one cell apart in one direction, give or take the jitter. */
  lemma NeighboursWithin(g: Config, a: NodeID, b: NodeID)
    requires Drawn(g) && Adjacent(a, b)
    ensures Sway(g) >= 0.0
    ensures var p, q := Place(g, a), Place(g, b);
      (g.spacing - 2.0 * Sway(g) <= Distance(p.x - q.x) || g.spacing - 2.0 * Sway(g) <= Distance(p.y - q.y)) &&
      Distance(p.x - q.x) + Distance(p.y - q.y) <= g.spacing + 4.0 * Sway(g)
  {
    hide Place, Sway, Lattice;
    PlaceWithin(g, a);
    PlaceWithin(g, b);
    LatticeStep(a.col, b.col, g.spacing);
    LatticeStep(a.row, b.row, g.spacing);
  }

  /** Roads are between spacing * (1 - 2 * fraction) and spacing * (1 + 4 * fraction) long. */
  lemma GridPaved(g: Config, euclid: (Point, Point) -> real, c: City)
    requires Drawn(g) && g.fraction < 0.5 && IsGrid(g, euclid, c) && IsEuclid(euclid)
    ensures Paved(c, g.spacing - 2.0 * Sway(g), g.spacing + 4.0 * Sway(g))
  {
    SwayBelow(g);
    hide IsEuclid, Place, Sway, Drawn;
    forall n, k | n in c.edges && 0 <= k < |c.edges[n]|
      ensures g.spacing - 2.0 * Sway(g) <= c.edges[n][k].weight <= g.spacing + 4.0 * Sway(g)
    {
      var m := c.edges[n][k].to;
      assert IsRoad(c.nodes, euclid, n, c.edges[n][k]) && (n, m) in Everywhere(g);
      NeighboursWithin(g, n, m);
      EuclidWithin(euclid, Place(g, n), Place(g, m), g.spacing - 2.0 * Sway(g), g.spacing + 4.0 * Sway(g));
    }
  }

  lemma HalfBelow(f: real, s: real)
    requires 0.0 <= f < 0.5 && s > 0.0
    ensures 0.0 <= Part(f, s) < 0.5 * s
  {
    var rest := 0.5 - f;
    assert rest * s > 0.0;
    assert f * s == 0.5 * s - rest * s by {
      assert f == 0.5 - rest;
    }
  }

  lemma SwayBelow(g: Config)
    requires Drawn(g) && g.fraction < 0.5
    ensures 0.0 <= Sway(g) && 2.0 * Sway(g) < g.spacing
  {
    hide Part;
    HalfBelow(g.fraction, g.spacing);
  }

  // ---------------------------------------------------------------------------------------------
  // Every intersection can be reached from every other
  // ---------------------------------------------------------------------------------------------

  lemma ReachStep(g: Config, euclid: (Point, Point) -> real, c: City, a: NodeID, b: NodeID, d: NodeID)
    requires IsGrid(g, euclid, c) && Reachable(c, a, b) && InGrid(g, b) && InGrid(g, d) && Adjacent(b, d)
    ensures Reachable(c, a, d)
  {
    GridRoads(g, euclid, c, b, d);
    hide IsGrid;
    var es: seq<Edge> :| IsWalk(c, a, es, b);
    var k := FirstToFound(Out(c, b), d);
    WalkExtend(c, a, es, b, Out(c, b)[k]);
  }

  lemma {:induction false} ReachAlongRow(g: Config, euclid: (Point, Point) -> real, c: City, a: NodeID, b: NodeID,
                                         col: nat)
    requires IsGrid(g, euclid, c) && Reachable(c, a, b) && InGrid(g, b) && col < g.cols
    ensures Reachable(c, a, NodeID(b.row, col))
    decreases if b.col < col then col - b.col else b.col - col
  {
    hide IsGrid, Reachable;
    if b.col != col {
      var next := NodeID(b.row, if b.col < col then b.col + 1 else b.col - 1);
      ReachStep(g, euclid, c, a, b, next);
      ReachAlongRow(g, euclid, c, a, next, col);
    }
  }

  lemma {:induction false} ReachAlongColumn(g: Config, euclid: (Point, Point) -> real, c: City, a: NodeID, b: NodeID,
                                            row: nat)
    requires IsGrid(g, euclid, c) && Reachable(c, a, b) && InGrid(g, b) && row < g.rows
    ensures Reachable(c, a, NodeID(row, b.col))
    decreases if b.row < row then row - b.row else b.row - row
  {
    hide IsGrid, Reachable;
    if b.row != row {
      var next := NodeID(if b.row < row then b.row + 1 else b.row - 1, b.col);
      ReachStep(g, euclid, c, a, b, next);
      ReachAlongColumn(g, euclid, c, a, next, row);
    }
  }

  lemma GridConnected(g: Config, euclid: (Point, Point) -> real, c: City)
    requires IsGrid(g, euclid, c)
    ensures Connected(c)
  {
    forall a, b | a in c.nodes && b in c.nodes
      ensures Reachable(c, a, b)
    {
      assert IsWalk(c, a, [], a);
      ReachAlongRow(g, euclid, c, a, a, b.col);
      ReachAlongColumn(g, euclid, c, a, NodeID(a.row, b.col), b.row);
    }
  }

  /** A generated city is fit for the simulation and without dead ends. */
  lemma GridIsFit(g: Config, euclid: (Point, Point) -> real, c: City)
    requires Drawn(g) && g.fraction < 0.5 && IsGrid(g, euclid, c) && IsEuclid(euclid)
    ensures CityOk(c, euclid, g.spacing - 2.0 * Sway(g), g.spacing + 4.0 * Sway(g)) && Connected(c)
  {
    hide Drawn, IsGrid, IsEuclid, Streets, Symmetric, Metric, Paved, Connected, Sway;
    GridStreets(g, euclid, c);
    GridSymmetric(g, euclid, c);
    GridMetric(g, euclid, c);
    GridPaved(g, euclid, c);
    GridConnected(g, euclid, c);
  }

  /** With the default spacing and jitter a road takes more than two ticks. */
  lemma DefaultRoadsAreLong(g: Config)
    requires g.spacing == 100.0 && g.fraction == 0.15
    ensures g.spacing - 2.0 * Sway(g) == 70.0 > DRIVER_SPEED
  {
  }
}