/** Go's order on strings, used wherever the source sorts by id. */
module Ordering {

  predicate StrLe(a: string, b: string)
  {
    a == [] || (b != [] && (a[0] < b[0] || (a[0] == b[0] && StrLe(a[1..], b[1..]))))
  }

  lemma {:induction false} StrLeTotal(a: string, b: string)
    ensures StrLe(a, b) || StrLe(b, a)
    ensures StrLe(a, b) && StrLe(b, a) ==> a == b
  {
    if a != [] && b != [] && a[0] == b[0] {
      StrLeTotal(a[1..], b[1..]);
      assert a == [a[0]] + a[1..] && b == [b[0]] + b[1..];
    }
  }

  /** A string comes first if the other one goes on from it, or if it has the smaller character where they
      first differ; and not otherwise. */
  lemma {:induction false} StrLeIff(a: string, b: string)
    ensures StrLe(a, b) <==>
      a <= b || exists k :: 0 <= k < |a| && k < |b| && a[..k] == b[..k] && a[k] < b[k]
  {
    if a != [] && b != [] && a[0] == b[0] {
      StrLeIff(a[1..], b[1..]);
      assert a <= b <==> a[1..] <= b[1..] by { assert a == [a[0]] + a[1..] && b == [b[0]] + b[1..]; }
      FirstDifference(a, b);
    } else if a != [] && b != [] {
      assert a[..0] == b[..0];
      forall k | 0 < k < |a| && k < |b|
        ensures a[..k] != b[..k]
      {
        assert a[..k][0] == a[0] && b[..k][0] == b[0];
      }
    }
  }

  lemma FirstDifference(a: string, b: string)
    requires a != [] && b != [] && a[0] == b[0]
    ensures (exists k :: 0 <= k < |a| && k < |b| && a[..k] == b[..k] && a[k] < b[k]) <==>
      exists k :: 0 <= k < |a[1..]| && k < |b[1..]| && a[1..][..k] == b[1..][..k] && a[1..][k] < b[1..][k]
  {
    forall k | 0 < k < |a| && k < |b|
      ensures a[..k] == b[..k] <==> a[1..][..k - 1] == b[1..][..k - 1]
    {
      assert a[..k] == [a[0]] + a[1..][..k - 1] && b[..k] == [b[0]] + b[1..][..k - 1];
    }
    if k :| 0 <= k < |a| && k < |b| && a[..k] == b[..k] && a[k] < b[k] {
      assert a[1..][k - 1] < b[1..][k - 1];
    }
    if k :| 0 <= k < |a[1..]| && k < |b[1..]| && a[1..][..k] == b[1..][..k] && a[1..][k] < b[1..][k] {
      assert a[k + 1] < b[k + 1] && a[..k + 1] == b[..k + 1];
    }
  }

  lemma {:induction false} StrLeTransitive(a: string, b: string, c: string)
    requires StrLe(a, b) && StrLe(b, c)
    ensures StrLe(a, c)
  {
    if a != [] && a[0] == b[0] && b[0] == c[0] {
      StrLeTransitive(a[1..], b[1..], c[1..]);
    }
  }
}

/** The uniform grid over points (internal/spatial/grid.go). */
module Spatial {
  import opened Roads
  import opened Ordering
  import opened Squares

  datatype CellKey = CellKey(cx: int, cy: int)

  function CellOf(size: real, p: Point): CellKey
    requires size > 0.0
  {
    CellKey(Cell(p.x, size), Cell(p.y, size))
  }

  function Cell(x: real, size: real): int
    requires size > 0.0
  {
    (x / size).Floor
  }

  /** n cell widths. */
  function Scale(n: int, size: real): real
  {
    n as real * size
  }

  function DistSq(a: Point, b: Point): real
  {
    Sq(a.x - b.x) + Sq(a.y - b.y)
  }

  function Sq(d: real): real { d * d }

  lemma SqNonNegative(d: real)
    ensures Sq(d) >= 0.0
  {
  }

  /** The (distance, id) order of candidates. */
  predicate Closer(points: map<string, Point>, q: Point, a: string, b: string)
    requires a in points && b in points
  {
    var da, db := DistSq(points[a], q), DistSq(points[b], q);
    da < db || (da == db && a != b && StrLe(a, b))
  }

  lemma CloserOrder(points: map<string, Point>, q: Point, a: string, b: string, c: string)
    requires a in points && b in points && c in points
    ensures a != b ==> Closer(points, q, a, b) || Closer(points, q, b, a)
    ensures Closer(points, q, a, b) && Closer(points, q, b, c) ==> Closer(points, q, a, c)
    ensures !(Closer(points, q, a, b) && Closer(points, q, b, a))
  {
    StrLeTotal(a, b);
    StrLeTotal(b, c);
    if StrLe(a, b) && StrLe(b, c) { StrLeTransitive(a, b, c); }
  }

  predicate InBox(o: CellKey, r: int, k: CellKey)
  {
    -r <= k.cx - o.cx <= r && -r <= k.cy - o.cy <= r
  }

  lemma QuotientAbove(x: real, size: real, n: real)
    requires size > 0.0 && n <= x / size
    ensures n * size <= x
  {
    var q := x / size;
    assert q * size == x;
    assert (q - n) * size >= 0.0;
    assert (q - n) * size == q * size - n * size;
  }

  lemma QuotientBelow(x: real, size: real, n: real)
    requires size > 0.0 && x / size < n
    ensures x < n * size
  {
    var q := x / size;
    assert q * size == x;
    assert (n - q) * size > 0.0;
    assert (n - q) * size == n * size - q * size;
  }

  lemma FloorBounds(x: real, size: real)
    requires size > 0.0
    ensures Scale(Cell(x, size), size) <= x < Scale(Cell(x, size) + 1, size)
  {
    QuotientAbove(x, size, Cell(x, size) as real);
    QuotientBelow(x, size, (Cell(x, size) + 1) as real);
  }

  /** Cells more than r apart hold coordinates more than r * size apart. */
  lemma FarCoordinate(a: real, b: real, size: real, r: nat)
    requires size > 0.0 && Cell(a, size) - Cell(b, size) > r
    ensures a - b > Scale(r, size)
  {
    FloorBounds(a, size);
    FloorBounds(b, size);
    ScaleMonotone(Cell(b, size) + 1 + r, Cell(a, size), size);
    ScaleAdd(Cell(b, size) + 1, r, size);
  }

  lemma ScaleMonotone(m: int, n: int, size: real)
    requires m <= n && size > 0.0
    ensures Scale(m, size) <= Scale(n, size)
  {
    var d := n as real - m as real;
    assert d * size >= 0.0;
    assert n as real * size == m as real * size + d * size;
  }

  lemma ScaleAdd(m: int, n: int, size: real)
    ensures Scale(m + n, size) == Scale(m, size) + Scale(n, size)
  {
    assert (m + n) as real == m as real + n as real;
  }

  lemma FarAxis(a: real, b: real, size: real, r: nat)
    requires size > 0.0 && (Cell(a, size) - Cell(b, size) > r || Cell(b, size) - Cell(a, size) > r)
    ensures Sq(a - b) > Sq(Scale(r, size))
  {
    var m := Scale(r, size);
    ScaleMonotone(0, r, size);
    if Cell(a, size) - Cell(b, size) > r {
      FarCoordinate(a, b, size, r);
      SquareGrows(m, a - b);
    } else {
      FarCoordinate(b, a, size, r);
      SquareGrows(m, b - a);
      assert Sq(b - a) == Sq(a - b);
    }
  }

  /** A point outside the scanned box lies more than r cells away. */
  lemma OutsideIsFar(size: real, p: Point, q: Point, r: nat)
    requires size > 0.0 && !InBox(CellOf(size, q), r, CellOf(size, p))
    ensures DistSq(p, q) > Sq(Scale(r, size))
  {
    hide Sq, Scale, Cell;
    SqNonNegative(p.x - q.x);
    SqNonNegative(p.y - q.y);
    var kp, kq := CellOf(size, p), CellOf(size, q);
    if kp.cx - kq.cx > r || kq.cx - kp.cx > r {
      FarAxis(p.x, q.x, size, r);
    } else {
      FarAxis(p.y, q.y, size, r);
    }
  }

  /** What a scan has found once it stands before cell (cx, cy) of ring r. */
  predicate Seen(o: CellKey, r: int, cx: int, cy: int, k: CellKey)
  {
    InBox(o, r - 1, k) || (InBox(o, r, k) && (k.cx < cx || (k.cx == cx && k.cy < cy)))
  }

  /** `found` is `points` restricted to the cells seen so far. */
  ghost predicate Restricted(size: real, points: map<string, Point>, found: map<string, Point>,
                             o: CellKey, r: int, cx: int, cy: int)
    requires size > 0.0
  {
    (forall id :: id in found ==> id in points && found[id] == points[id]) &&
    (forall id :: id in points ==> (id in found <==> Seen(o, r, cx, cy, CellOf(size, points[id]))))
  }

  /** Exactly the points of rings 0 to r - 1 are found. */
  ghost predicate Rings(size: real, points: map<string, Point>, found: map<string, Point>, q: Point, r: nat)
    requires size > 0.0
  {
    var o := CellOf(size, q);
    Restricted(size, points, found, o, r, o.cx - r, o.cy - r)
  }

  /** Finitely many points fit in some box. */
  lemma {:induction false} SomeBox(size: real, points: map<string, Point>, o: CellKey, ids: set<string>)
    returns (r: nat)
    requires size > 0.0 && ids <= points.Keys
    ensures forall id :: id in ids ==> InBox(o, r, CellOf(size, points[id]))
    decreases |ids|
  {
    if ids == {} {
      r := 0;
    } else {
      var id :| id in ids;
      var k := CellOf(size, points[id]);
      var s := SomeBox(size, points, o, ids - {id});
      var dx, dy := k.cx - o.cx, k.cy - o.cy;
      r := s + (if dx < 0 then -dx else dx) + (if dy < 0 then -dy else dy);
      assert forall x :: x in ids ==> x == id || x in ids - {id};
    }
  }

  /** Sorted by (distance, id), hence also free of duplicates. */
  ghost predicate SortedByDistance(points: map<string, Point>, q: Point, ids: seq<string>)
  {
    (forall i :: 0 <= i < |ids| ==> ids[i] in points) &&
    forall i, j :: 0 <= i < j < |ids| ==> Closer(points, q, ids[i], ids[j])
  }

  lemma InsertSorted(points: map<string, Point>, q: Point, ids: seq<string>, x: string, k: nat)
    requires SortedByDistance(points, q, ids) && x in points && k <= |ids|
    requires k < |ids| ==> Closer(points, q, x, ids[k])
    requires k > 0 ==> Closer(points, q, ids[k - 1], x)
    ensures SortedByDistance(points, q, ids[..k] + [x] + ids[k..])
  {
    var s := ids[..k] + [x] + ids[k..];
    forall i | 0 <= i < k
      ensures Closer(points, q, ids[i], x)
    {
      CloserOrder(points, q, ids[i], ids[k - 1], x);
    }
    forall i | k <= i < |ids|
      ensures Closer(points, q, x, ids[i])
    {
      CloserOrder(points, q, x, ids[k], ids[i]);
    }
    forall i, j | 0 <= i < j < |s|
      ensures Closer(points, q, s[i], s[j])
    {
      if i == k || j == k {
      } else {
        assert s[i] == ids[if i < k then i else i - 1] && s[j] == ids[if j < k then j else j - 1];
      }
    }
  }

  /** Exactly the keys, in (distance, id) order. */
  ghost predicate SortedKeys(points: map<string, Point>, q: Point, ids: seq<string>)
  {
    SortedByDistance(points, q, ids) && Lists(points, ids) && |ids| == |points|
  }

  function Cut(ids: seq<string>, n: nat): seq<string>
  {
    if |ids| > n then ids[..n] else ids
  }

  ghost predicate Lists(points: map<string, Point>, ids: seq<string>)
  {
    forall id :: id in points <==> id in ids
  }

  /** sort.Slice by (distance, id) over the keys of `found` (grid.go lines 106-116). */
  method SortByDistance(found: map<string, Point>, q: Point) returns (ids: seq<string>)
    ensures SortedKeys(found, q, ids)
  {
    ids := [];
    var rest := found.Keys;
    assert |rest| == |found|;
    while rest != {}
      invariant rest <= found.Keys && SortedByDistance(found, q, ids)
      invariant forall id :: id in found.Keys - rest <==> id in ids
      invariant |ids| + |rest| == |found|
      decreases |rest|
    {
      var x :| x in rest;
      var k := Slot(found, q, ids, x);
      InsertSorted(found, q, ids, x, k);
      InsertMembers(ids, x, k);
      ids := ids[..k] + [x] + ids[k..];
      rest := rest - {x};
    }
  }

  lemma InsertMembers(ids: seq<string>, x: string, k: nat)
    requires k <= |ids|
    ensures forall id :: id in ids[..k] + [x] + ids[k..] <==> id in ids || id == x
  {
    var s := ids[..k] + [x] + ids[k..];
    assert ids == ids[..k] + ids[k..];
  }

  method Slot(points: map<string, Point>, q: Point, ids: seq<string>, x: string) returns (k: nat)
    requires SortedByDistance(points, q, ids) && x in points && x !in ids
    ensures k <= |ids|
    ensures k < |ids| ==> Closer(points, q, x, ids[k])
    ensures k > 0 ==> Closer(points, q, ids[k - 1], x)
  {
    k := |ids|;
    while k > 0 && Closer(points, q, x, ids[k - 1])
      invariant k <= |ids| && (k < |ids| ==> Closer(points, q, x, ids[k]))
    {
      k := k - 1;
    }
    if k > 0 { CloserOrder(points, q, x, ids[k - 1], x); }
  }

  // ---------------------------------------------------------------------------------------------
  // The grid
  // ---------------------------------------------------------------------------------------------

  /** Cells list exactly the points, each under the cell it falls in, and no cell is empty. */
  ghost predicate Partition(size: real, cells: map<CellKey, map<string, Point>>, points: map<string, Point>)
    requires size > 0.0
  {
    (forall id :: id in points ==>
      CellOf(size, points[id]) in cells && id in cells[CellOf(size, points[id])]) &&
    (forall k, id :: k in cells && id in cells[k] ==>
      id in points && points[id] == cells[k][id] && CellOf(size, points[id]) == k) &&
    (forall k :: k in cells ==> cells[k] != map[])
  }

  lemma PartitionRemove(size: real, cells: map<CellKey, map<string, Point>>, points: map<string, Point>, id: string,
                        cells': map<CellKey, map<string, Point>>)
    requires size > 0.0 && Partition(size, cells, points) && id in points
    requires var k := CellOf(size, points[id]);
      var cell := cells[k] - {id};
      cells' == if cell == map[] then cells - {k} else cells[k := cell]
    ensures Partition(size, cells', points - {id})
  {
    var k := CellOf(size, points[id]);
    var cell := cells[k] - {id};
    forall x | x in points - {id}
      ensures CellOf(size, points[x]) in cells' && x in cells'[CellOf(size, points[x])]
    {
      if CellOf(size, points[x]) == k { assert x in cell; }
    }
  }

  lemma PartitionAdd(size: real, cells: map<CellKey, map<string, Point>>, points: map<string, Point>, id: string,
                     p: Point)
    requires size > 0.0 && Partition(size, cells, points) && id !in points
    ensures var k := CellOf(size, p);
      Partition(size, cells[k := (if k in cells then cells[k] else map[])[id := p]], points[id := p])
  {
    var k := CellOf(size, p);
    var cell := (if k in cells then cells[k] else map[])[id := p];
    assert id in cell;
  }

  class Grid {
    const cellSize: real
    var cells: map<CellKey, map<string, Point>>
    var points: map<string, Point>

    ghost predicate Valid()
      reads this
    {
      cellSize > 0.0 && Partition(cellSize, cells, points)
    }

    /** An empty grid; a non-positive size is replaced with 1 (grid.go lines 37-46). */
    constructor (size: real)
      ensures Valid() && points == map[]
      ensures cellSize == if size <= 0.0 then 1.0 else size
    {
      cellSize := if size <= 0.0 then 1.0 else size;
      cells := map[];
      points := map[];
    }

    /** Deletes id from both maps, dropping an emptied cell (grid.go lines 60-71). */
    method Remove(id: string)
      requires Valid()
      modifies this
      ensures Valid() && points == old(points) - {id}
    {
      if id !in points {
        assert points == points - {id};
        return;
      }
      var key := CellOf(cellSize, points[id]);
      var cell := cells[key] - {id};
      ghost var before := cells;
      if cell == map[] {
        cells := cells - {key};
      } else {
        cells := cells[key := cell];
      }
      PartitionRemove(cellSize, before, points, id, cells);
      points := points - {id};
    }

    /** Inserts id at p, or moves it there (grid.go lines 49-57). */
    method Set(id: string, p: Point)
      requires Valid()
      modifies this
      ensures Valid() && points == old(points)[id := p]
    {
      ghost var before := points;
      Remove(id);
      var key := CellOf(cellSize, p);
      PartitionAdd(cellSize, cells, points, id, p);
      cells := cells[key := (if key in cells then cells[key] else map[])[id := p]];
      points := points[id := p];
      assert points == before[id := p];
    }

    /** The nearest indexed ids among those scanned (grid.go lines 80-121). Rings are scanned outward
        until enough ids are found. */
    method Candidates(query: Point, maxResults: int) returns (ids: seq<string>)
      requires Valid()
      ensures IsAnswer(points, query, cellSize, maxResults, ids)
    {
      assert cellSize > 0.0 && Partition(cellSize, cells, points);
      hide *;
      if maxResults <= 0 || points == map[] {
        NoAnswer(points, query, cellSize, maxResults);
        SomeAnswer(points, query, cellSize, maxResults, [], 0);
        return [];
      }
      var found;
      ghost var radius;
      found, radius := Gather(cellSize, cells, points, query, maxResults);
      var all := SortByDistance(found, query);
      ids := Cut(all, maxResults);
      Answer(cellSize, points, found, query, radius, all, ids, maxResults);
      SomeAnswer(points, query, cellSize, maxResults, ids, radius);
    }
  }

  /** An id left out sorts after every returned one, or lies more than `reach` away. */
  ghost predicate NothingMissed(points: map<string, Point>, q: Point, ids: seq<string>, reach: real)
  {
    (forall k :: 0 <= k < |ids| ==> ids[k] in points) &&
    forall id, k :: id in points && id !in ids && 0 <= k < |ids| ==>
      Closer(points, q, ids[k], id) || DistSq(points[id], q) > Sq(reach)
  }

  /** One ring of the outward scan (grid.go lines 89-103). */
  method ScanRing(size: real, cells: map<CellKey, map<string, Point>>, points: map<string, Point>,
                  ghost query: Point, o: CellKey, r: nat, found0: map<string, Point>)
    returns (found: map<string, Point>)
    requires size > 0.0 && Partition(size, cells, points) && o == CellOf(size, query)
    requires Rings(size, points, found0, query, r)
    ensures Rings(size, points, found, query, r + 1)
  {
    hide Restricted, Partition;
    found := found0;
    var cx := o.cx - r;
    while cx <= o.cx + r
      invariant o.cx - r <= cx <= o.cx + r + 1
      invariant Restricted(size, points, found, o, r, cx, o.cy - r)
    {
      found := ScanColumn(size, cells, points, o, r, cx, found);
      cx := cx + 1;
    }
    NextRing(size, points, found, o, r);
  }

  method ScanColumn(size: real, cells: map<CellKey, map<string, Point>>, points: map<string, Point>,
                    o: CellKey, r: nat, cx: int, found0: map<string, Point>) returns (found: map<string, Point>)
    requires size > 0.0 && Partition(size, cells, points) && o.cx - r <= cx <= o.cx + r
    requires Restricted(size, points, found0, o, r, cx, o.cy - r)
    ensures Restricted(size, points, found, o, r, cx + 1, o.cy - r)
  {
    hide Restricted, Partition;
    found := found0;
    var cy := o.cy - r;
    while cy <= o.cy + r
      invariant o.cy - r <= cy <= o.cy + r + 1
      invariant Restricted(size, points, found, o, r, cx, cy)
    {
      var onRing := r == 0 || cx == o.cx - r || cx == o.cx + r || cy == o.cy - r || cy == o.cy + r;
      ghost var before := found;
      if onRing && CellKey(cx, cy) in cells {
        found := found + cells[CellKey(cx, cy)];
      }
      ScanCellStep(size, cells, points, before, found, o, r, cx, cy);
      cy := cy + 1;
    }
    NextColumn(size, points, found, o, r, cx);
  }

  /** A column scanned to its end is the next one not yet begun. */
  lemma NextColumn(size: real, points: map<string, Point>, found: map<string, Point>, o: CellKey, r: nat, cx: int)
    requires size > 0.0 && Restricted(size, points, found, o, r, cx, o.cy + r + 1)
    ensures Restricted(size, points, found, o, r, cx + 1, o.cy - r)
  {
    forall id | id in points
      ensures Seen(o, r, cx, o.cy + r + 1, CellOf(size, points[id])) <==>
        Seen(o, r, cx + 1, o.cy - r, CellOf(size, points[id]))
    {
    }
  }

  /** The ring loop (grid.go lines 85-104); r counts the rings scanned. */
  method Gather(size: real, cells: map<CellKey, map<string, Point>>, points: map<string, Point>,
                query: Point, maxResults: nat) returns (found: map<string, Point>, ghost radius: nat)
    requires size > 0.0 && Partition(size, cells, points) && maxResults > 0 && points != map[]
    ensures Rings(size, points, found, query, radius + 1)
    ensures |found| >= maxResults || |found| == |points|
    ensures NotSooner(size, points, query, maxResults, radius + 1)
  {
    hide *;
    var origin := CellOf(size, query);
    found := map[];
    ghost var reach := SomeBox(size, points, origin, points.Keys);
    var r: nat := 0;
    NothingFound(size, points, query, maxResults);
    assert |points| > 0;
    while |found| < maxResults && |found| < |points|
      invariant Rings(size, points, found, query, r) && NotSooner(size, points, query, maxResults, r)
      invariant r == 0 ==> |found| == 0
      decreases reach + 1 - r
    {
      if r > reach { AllFound(size, points, found, query, r, reach); }
      TooFew(size, points, found, query, maxResults, r);
      found := ScanRing(size, cells, points, query, origin, r, found);
      r := r + 1;
    }
    FoundSize(size, points, found, query, r);
    assert |found| <= |points| && r > 0;
    radius := r - 1;
    assert r == radius + 1;
  }

  /** The ids in the rings up to r around q. */
  ghost function Near(points: map<string, Point>, q: Point, size: real, r: nat): set<string>
    requires size > 0.0
  {
    set id | id in points && InBox(CellOf(size, q), r, CellOf(size, points[id]))
  }

  /** One ring less than the r scanned ones would not have been enough. */
  ghost predicate NotSooner(size: real, points: map<string, Point>, q: Point, maxResults: nat, r: nat)
    requires size > 0.0
  {
    r > 1 ==> |Near(points, q, size, r - 2)| < maxResults && |Near(points, q, size, r - 2)| < |points|
  }

  lemma RingsNear(size: real, points: map<string, Point>, found: map<string, Point>, q: Point, r: nat)
    requires size > 0.0 && Rings(size, points, found, q, r) && r > 0
    ensures found.Keys == Near(points, q, size, r - 1)
  {
    var o := CellOf(size, q);
    forall id | id in points
      ensures Seen(o, r, o.cx - r, o.cy - r, CellOf(size, points[id])) <==> InBox(o, r - 1, CellOf(size, points[id]))
    {
    }
  }

  lemma TooFew(size: real, points: map<string, Point>, found: map<string, Point>, q: Point, maxResults: nat, r: nat)
    requires size > 0.0 && Rings(size, points, found, q, r) && |found| < maxResults && |found| < |points|
    ensures NotSooner(size, points, q, maxResults, r + 1)
  {
    if r > 0 {
      RingsNear(size, points, found, q, r);
      assert |found.Keys| == |found|;
    }
  }

  /** The ids are the first ones, in order, of those in the fewest rings that hold enough of them. */
  ghost predicate FirstOfRings(points: map<string, Point>, q: Point, size: real, maxResults: int, ids: seq<string>,
                               radius: nat)
    requires size > 0.0
  {
    maxResults > 0 && points != map[] ==>
      (forall id :: id in ids ==> id in Near(points, q, size, radius)) &&
      (forall id, k :: id in Near(points, q, size, radius) && id !in ids && 0 <= k < |ids| && ids[k] in points ==>
        Closer(points, q, ids[k], id)) &&
      NotSooner(size, points, q, maxResults, radius + 1)
  }

  /** What Candidates returns: min(maxResults, n) indexed ids in (distance, id) order, the first of those
      in the scanned rings; everything when nothing need be cut; and nothing left out that is both closer
      and within the scanned rings. */
  ghost predicate Answers(points: map<string, Point>, q: Point, size: real, maxResults: int, ids: seq<string>,
                          radius: nat)
  {
    (size > 0.0 ==> FirstOfRings(points, q, size, maxResults, ids, radius)) && SortedByDistance(points, q, ids) &&
      NothingMissed(points, q, ids, Scale(radius, size)) &&
    |ids| == (if maxResults <= 0 then 0 else if maxResults < |points| then maxResults else |points|) &&
    (maxResults >= |points| ==> Lists(points, ids))
  }

  /** ... for the rings that were scanned. */
  ghost predicate IsAnswer(points: map<string, Point>, q: Point, size: real, maxResults: int, ids: seq<string>)
  {
    exists radius: nat :: Answers(points, q, size, maxResults, ids, radius)
  }

  lemma SomeAnswer(points: map<string, Point>, q: Point, size: real, maxResults: int, ids: seq<string>, radius: nat)
    requires Answers(points, q, size, maxResults, ids, radius)
    ensures IsAnswer(points, q, size, maxResults, ids)
  {
    hide Answers;
  }

  lemma NoAnswer(points: map<string, Point>, q: Point, size: real, maxResults: int)
    requires maxResults <= 0 || points == map[]
    ensures Answers(points, q, size, maxResults, [], 0)
  {
  }

  lemma ScanCellStep(size: real, cells: map<CellKey, map<string, Point>>, points: map<string, Point>,
                     found: map<string, Point>, found': map<string, Point>, o: CellKey, r: nat, cx: int, cy: int)
    requires size > 0.0 && Partition(size, cells, points)
    requires o.cx - r <= cx <= o.cx + r && o.cy - r <= cy <= o.cy + r
    requires Restricted(size, points, found, o, r, cx, cy)
    requires var onRing := r == 0 || cx == o.cx - r || cx == o.cx + r || cy == o.cy - r || cy == o.cy + r;
      found' == if onRing && CellKey(cx, cy) in cells then found + cells[CellKey(cx, cy)] else found
    ensures Restricted(size, points, found', o, r, cx, cy + 1)
  {
    forall id | id in points
      ensures id in found' <==> Seen(o, r, cx, cy + 1, CellOf(size, points[id]))
    {
      var k := CellOf(size, points[id]);
      assert id in cells[k];
    }
  }

  lemma NothingFound(size: real, points: map<string, Point>, q: Point, maxResults: nat)
    requires size > 0.0
    ensures Rings(size, points, map[], q, 0) && NotSooner(size, points, q, maxResults, 0)
  {
  }

  lemma NextRing(size: real, points: map<string, Point>, found: map<string, Point>, o: CellKey, r: nat)
    requires size > 0.0 && Restricted(size, points, found, o, r, o.cx + r + 1, o.cy - r)
    ensures Restricted(size, points, found, o, r + 1, o.cx - (r + 1), o.cy - (r + 1))
  {
    forall id | id in points
      ensures Seen(o, r, o.cx + r + 1, o.cy - r, CellOf(size, points[id])) <==>
              Seen(o, r + 1, o.cx - (r + 1), o.cy - (r + 1), CellOf(size, points[id]))
    {
    }
  }

  lemma FoundSize(size: real, points: map<string, Point>, found: map<string, Point>, q: Point, r: nat)
    requires size > 0.0 && Rings(size, points, found, q, r)
    ensures |found| <= |points|
    ensures |found| == |points| ==> found == points
  {
    SubsetSize(found.Keys, points.Keys);
    assert |found.Keys| == |found| && |points.Keys| == |points|;
  }

  lemma {:induction false} SubsetSize(a: set<string>, b: set<string>)
    requires a <= b
    ensures |a| <= |b|
    ensures |a| == |b| ==> a == b
    decreases |a|
  {
    if a != {} {
      var x :| x in a;
      SubsetSize(a - {x}, b - {x});
      assert (a - {x}) + {x} == a && (b - {x}) + {x} == b;
    }
  }

  /** Once the scan is wider than the points, everything is found. */
  lemma AllFound(size: real, points: map<string, Point>, found: map<string, Point>, q: Point, r: nat, reach: nat)
    requires size > 0.0 && Rings(size, points, found, q, r) && r > reach
    requires forall id :: id in points.Keys ==> InBox(CellOf(size, q), reach, CellOf(size, points[id]))
    ensures |found| == |points|
  {
    var o := CellOf(size, q);
    assert forall id :: id in points ==> Seen(o, r, o.cx - r, o.cy - r, CellOf(size, points[id]));
    assert found.Keys == points.Keys;
  }

  /** Whatever is cut off sorts after what is kept; whatever was not scanned is far away. */
  lemma Trim(size: real, points: map<string, Point>, found: map<string, Point>, q: Point, r: nat, ids: seq<string>,
             n: nat)
    requires size > 0.0 && r > 0 && n <= |ids|
    requires Rings(size, points, found, q, r)
    requires SortedByDistance(found, q, ids) && Lists(found, ids)
    ensures SortedByDistance(points, q, ids[..n])
    ensures NothingMissed(points, q, ids[..n], Scale(r - 1, size))
  {
    var o := CellOf(size, q);
    forall id, k | id in points && id !in ids[..n] && 0 <= k < n
      ensures Closer(points, q, ids[k], id) || DistSq(points[id], q) > Sq(Scale(r - 1, size))
    {
      if id in found {
        var j :| 0 <= j < |ids| && ids[j] == id;
        assert Closer(found, q, ids[k], ids[j]);
      } else {
        OutsideIsFar(size, points[id], q, r - 1);
      }
    }
  }

  lemma Answer(size: real, points: map<string, Point>, found: map<string, Point>, q: Point, radius: nat,
               all: seq<string>, ids: seq<string>, maxResults: int)
    requires size > 0.0 && maxResults > 0 && Rings(size, points, found, q, radius + 1)
    requires SortedKeys(found, q, all) && (|found| >= maxResults || |found| == |points|)
    requires ids == Cut(all, maxResults) && NotSooner(size, points, q, maxResults, radius + 1)
    ensures Answers(points, q, size, maxResults, ids, radius)
  {
    FoundSize(size, points, found, q, radius + 1);
    Trim(size, points, found, q, radius + 1, all, |ids|);
    assert ids == all[..|ids|];
    FirstFound(size, points, found, q, radius, all, ids, maxResults);
  }

  lemma FirstFound(size: real, points: map<string, Point>, found: map<string, Point>, q: Point, radius: nat,
                   all: seq<string>, ids: seq<string>, maxResults: nat)
    requires size > 0.0 && Rings(size, points, found, q, radius + 1) && SortedKeys(found, q, all)
    requires |ids| <= |all| && ids == all[..|ids|] && NotSooner(size, points, q, maxResults, radius + 1)
    ensures FirstOfRings(points, q, size, maxResults, ids, radius)
  {
    RingsNear(size, points, found, q, radius + 1);
    hide NotSooner, InBox, CellOf, Near;
    forall id, k | id in Near(points, q, size, radius) && id !in ids && 0 <= k < |ids| && ids[k] in points
      ensures Closer(points, q, ids[k], id)
    {
      var j :| 0 <= j < |all| && all[j] == id;
      assert Closer(found, q, all[k], all[j]);
    }
    assert forall id :: id in ids ==> id in all;
  }

  // ---------------------------------------------------------------------------------------------
  // When the answer is the nearest points
  // ---------------------------------------------------------------------------------------------

  /** How many ids are returned. */
  function Wanted(points: map<string, Point>, maxResults: int): nat
  {
    if maxResults <= 0 then 0 else if maxResults < |points| then maxResults else |points|
  }

  /** The fewest rings around q that hold m points. */
  ghost predicate IsRadius(points: map<string, Point>, q: Point, size: real, m: nat, r: nat)
    requires size > 0.0
  {
    |Near(points, q, size, r)| >= m && (r > 0 ==> |Near(points, q, size, r - 1)| < m)
  }

  lemma NearGrows(points: map<string, Point>, q: Point, size: real, r: nat, r': nat)
    requires size > 0.0 && r <= r'
    ensures Near(points, q, size, r) <= Near(points, q, size, r') <= points.Keys
    ensures |Near(points, q, size, r)| <= |Near(points, q, size, r')|
  {
    SubsetSize(Near(points, q, size, r), Near(points, q, size, r'));
  }

  lemma OneRadius(points: map<string, Point>, q: Point, size: real, m: nat, r: nat, r': nat)
    requires size > 0.0 && IsRadius(points, q, size, m, r) && IsRadius(points, q, size, m, r')
    ensures r == r'
  {
    hide Near;
    if r < r' { NearGrows(points, q, size, r, r' - 1); }
    if r' < r { NearGrows(points, q, size, r', r - 1); }
  }

  function Members(ids: seq<string>): set<string> { set k | 0 <= k < |ids| :: ids[k] }

  lemma {:induction false} MembersCount(points: map<string, Point>, q: Point, ids: seq<string>)
    requires SortedByDistance(points, q, ids)
    ensures |Members(ids)| == |ids|
  {
    if ids != [] {
      var n := |ids| - 1;
      MembersCount(points, q, ids[..n]);
      assert ids[n] !in Members(ids[..n]);
      assert Members(ids) == Members(ids[..n]) + {ids[n]};
    } else {
      assert Members(ids) == {};
    }
  }

  /** The first ids, in order, of those in `near`. */
  ghost predicate Leads(points: map<string, Point>, q: Point, near: set<string>, ids: seq<string>)
  {
    near <= points.Keys && SortedByDistance(points, q, ids) && Members(ids) <= near &&
    forall id, k :: id in near && id !in ids && 0 <= k < |ids| ==> Closer(points, q, ids[k], id)
  }

  lemma AnswerIsFirst(points: map<string, Point>, q: Point, size: real, maxResults: int, ids: seq<string>)
    returns (r: nat)
    requires size > 0.0 && maxResults > 0 && points != map[] && IsAnswer(points, q, size, maxResults, ids)
    ensures IsRadius(points, q, size, Wanted(points, maxResults), r) && Leads(points, q, Near(points, q, size, r), ids)
    ensures |ids| == Wanted(points, maxResults)
  {
    hide InBox, CellOf, Closer, NothingMissed;
    r :| Answers(points, q, size, maxResults, ids, r);
    NearGrows(points, q, size, r, r);
    MembersCount(points, q, ids);
    SubsetSize(Members(ids), Near(points, q, size, r));
  }

  /** The first n of a set in (distance, id) order are determined. */
  lemma OneFirst(points: map<string, Point>, q: Point, near: set<string>, a: seq<string>, b: seq<string>)
    requires Leads(points, q, near, a) && Leads(points, q, near, b) && |a| == |b|
    ensures a == b
  {
    hide Closer;
    for k := 0 to |a|
      invariant forall i :: 0 <= i < k ==> a[i] == b[i]
    {
      NotAhead(points, q, near, a, b, k);
      NotAhead(points, q, near, b, a, k);
      CloserOrder(points, q, a[k], b[k], a[k]);
    }
  }

  lemma NotAhead(points: map<string, Point>, q: Point, near: set<string>, a: seq<string>, b: seq<string>, k: nat)
    requires Leads(points, q, near, a) && Leads(points, q, near, b) && k < |a| == |b|
    requires forall i :: 0 <= i < k ==> a[i] == b[i]
    ensures !Closer(points, q, a[k], b[k])
  {
    hide Closer;
    CloserOrder(points, q, a[k], b[k], a[k]);
    if Closer(points, q, a[k], b[k]) { NotAmong(points, q, near, a, b, k); }
  }

  lemma NotAmong(points: map<string, Point>, q: Point, near: set<string>, a: seq<string>, b: seq<string>, k: nat)
    requires Leads(points, q, near, a) && Leads(points, q, near, b) && k < |a| == |b|
    requires (forall i :: 0 <= i < k ==> a[i] == b[i]) && Closer(points, q, a[k], b[k])
    ensures a[k] in near && a[k] !in b
  {
    hide Closer;
    assert a[k] in Members(a);
    forall j | 0 <= j < |b|
      ensures b[j] != a[k]
    {
      if j < k {
        assert Closer(points, q, a[j], a[k]);
        CloserOrder(points, q, a[k], a[j], a[k]);
      } else {
        CloserOrder(points, q, a[k], b[k], b[j]);
        CloserOrder(points, q, a[k], b[j], a[k]);
        assert j > k ==> Closer(points, q, b[k], b[j]);
      }
    }
  }

  /** Candidates has one answer. */
  lemma OneAnswer(points: map<string, Point>, q: Point, size: real, maxResults: int, a: seq<string>, b: seq<string>)
    requires size > 0.0 && IsAnswer(points, q, size, maxResults, a) && IsAnswer(points, q, size, maxResults, b)
    ensures a == b
  {
    if maxResults > 0 && points != map[] {
      hide Answers, Leads, IsRadius;
      var r := AnswerIsFirst(points, q, size, maxResults, a);
      var r' := AnswerIsFirst(points, q, size, maxResults, b);
      OneRadius(points, q, size, Wanted(points, maxResults), r, r');
      OneFirst(points, q, Near(points, q, size, r), a, b);
    }
  }

  /** The points of `near` that come before point id. */
  ghost function Before(points: map<string, Point>, q: Point, near: set<string>, id: string): set<string>
    requires id in points
  {
    set x | x in near && x in points && Closer(points, q, x, id)
  }

  /** The ids are the nearest of all points. */
  ghost predicate Nearest(points: map<string, Point>, q: Point, ids: seq<string>)
  {
    SortedByDistance(points, q, ids) &&
    forall id, k :: id in points && id !in ids && 0 <= k < |ids| ==> Closer(points, q, ids[k], id)
  }

  /** No point outside the scanned rings comes before the m-th point within them. */
  ghost predicate RingsSuffice(points: map<string, Point>, q: Point, near: set<string>, m: nat)
  {
    forall id :: id in points && id !in near ==> |Before(points, q, near, id)| >= m
  }

  /** The answer is the nearest points exactly when no point outside the fewest rings that hold enough
      points comes before the last one wanted from within them. */
  lemma NearestIff(points: map<string, Point>, q: Point, size: real, maxResults: int, ids: seq<string>, r: nat)
    requires size > 0.0 && maxResults > 0 && points != map[] && IsAnswer(points, q, size, maxResults, ids)
    requires IsRadius(points, q, size, Wanted(points, maxResults), r)
    ensures Nearest(points, q, ids) <==>
      RingsSuffice(points, q, Near(points, q, size, r), Wanted(points, maxResults))
  {
    hide Near, IsRadius, Closer, IsAnswer, Leads, Nearest, RingsSuffice;
    var r' := AnswerIsFirst(points, q, size, maxResults, ids);
    OneRadius(points, q, size, Wanted(points, maxResults), r, r');
    var near := Near(points, q, size, r);
    if Nearest(points, q, ids) { NearestSuffices(points, q, near, ids); }
    if RingsSuffice(points, q, near, |ids|) { SufficesNearest(points, q, near, ids); }
  }

  lemma NearestSuffices(points: map<string, Point>, q: Point, near: set<string>, ids: seq<string>)
    requires Leads(points, q, near, ids) && Nearest(points, q, ids)
    ensures RingsSuffice(points, q, near, |ids|)
  {
    hide Closer;
    forall id | id in points && id !in near
      ensures |Before(points, q, near, id)| >= |ids|
    {
      forall k | 0 <= k < |ids|
        ensures ids[k] in Before(points, q, near, id)
      {
        assert ids[k] in Members(ids);
        assert id !in Members(ids);
      }
      MembersCount(points, q, ids);
      SubsetSize(Members(ids), Before(points, q, near, id));
    }
  }

  lemma SufficesNearest(points: map<string, Point>, q: Point, near: set<string>, ids: seq<string>)
    requires Leads(points, q, near, ids) && RingsSuffice(points, q, near, |ids|)
    ensures Nearest(points, q, ids)
  {
    hide Closer;
    forall id, k | id in points && id !in ids && 0 <= k < |ids|
      ensures Closer(points, q, ids[k], id)
    {
      if id !in near && !Closer(points, q, ids[k], id) { TooManyBefore(points, q, near, ids, k, id); }
    }
  }

  /** What comes before the k-th of the first ids is among the k before it. */
  lemma TooManyBefore(points: map<string, Point>, q: Point, near: set<string>, ids: seq<string>, k: nat, id: string)
    requires Leads(points, q, near, ids) && k < |ids| && id in points && id !in ids && !Closer(points, q, ids[k], id)
    ensures |Before(points, q, near, id)| < |ids|
  {
    hide Closer;
    CloserOrder(points, q, id, ids[k], id);
    forall x | x in Before(points, q, near, id)
      ensures x in Members(ids[..k])
    {
      CloserOrder(points, q, x, id, ids[k]);
      CloserOrder(points, q, x, ids[k], x);
      assert x in ids;
      var j :| 0 <= j < |ids| && ids[j] == x;
      CloserOrder(points, q, ids[k], ids[j], ids[k]);
      assert j < k && ids[..k][j] == x;
    }
    assert SortedByDistance(points, q, ids[..k]);
    MembersCount(points, q, ids[..k]);
    SubsetSize(Before(points, q, near, id), Members(ids[..k]));
  }

  /** The points within `reach` of q. */
  ghost function Within(points: map<string, Point>, q: Point, reach: real): set<string>
  {
    set id | id in points && DistSq(points[id], q) <= Sq(reach)
  }

  /** Two cases in which the answer is the nearest points: everything is wanted, or enough points lie no
      farther away than the scanned rings reach. */
  lemma NearestWhen(points: map<string, Point>, q: Point, size: real, maxResults: int, ids: seq<string>, r: nat)
    requires size > 0.0 && maxResults > 0 && points != map[] && IsAnswer(points, q, size, maxResults, ids)
    requires IsRadius(points, q, size, Wanted(points, maxResults), r)
    requires maxResults >= |points| || |Within(points, q, Scale(r, size))| >= maxResults
    ensures Nearest(points, q, ids)
  {
    NearestIff(points, q, size, maxResults, ids, r);
    hide IsRadius, IsAnswer, Nearest, Closer, DistSq, Sq, Scale, CellOf, InBox;
    var near := Near(points, q, size, r);
    forall id | id in points && id !in near
      ensures |Before(points, q, near, id)| >= Wanted(points, maxResults)
    {
      if maxResults >= |points| {
        AllNear(points, q, size, r);
      } else {
        WithinBefore(points, q, size, r, id);
        SubsetSize(Within(points, q, Scale(r, size)), Before(points, q, near, id));
      }
    }
  }

  lemma AllNear(points: map<string, Point>, q: Point, size: real, r: nat)
    requires size > 0.0 && |Near(points, q, size, r)| >= |points|
    ensures Near(points, q, size, r) == points.Keys
  {
    assert |points.Keys| == |points|;
    SubsetSize(Near(points, q, size, r), points.Keys);
  }

  lemma WithinBefore(points: map<string, Point>, q: Point, size: real, r: nat, id: string)
    requires size > 0.0 && id in points && id !in Near(points, q, size, r)
    ensures Within(points, q, Scale(r, size)) <= Before(points, q, Near(points, q, size, r), id)
  {
    hide DistSq, Sq, Scale, CellOf, InBox;
    OutsideIsFar(size, points[id], q, r);
    forall x | x in Within(points, q, Scale(r, size))
      ensures x in Before(points, q, Near(points, q, size, r), id)
    {
      if x !in Near(points, q, size, r) { OutsideIsFar(size, points[x], q, r); }
    }
  }

  function Hidden(): map<string, Point>
  {
    map["far" := Point(0.5, 0.5), "near" := Point(-0.1, 0.0)]
  }

  lemma UnitCell(x: real, n: int)
    requires n as real <= x < n as real + 1.0
    ensures Cell(x, 1.0) == n
  {
    assert x / 1.0 == x;
  }

  lemma HiddenCells()
    ensures CellOf(1.0, Point(0.0, 0.0)) == CellKey(0, 0)
    ensures CellOf(1.0, Point(0.5, 0.5)) == CellKey(0, 0) && CellOf(1.0, Point(-0.1, 0.0)) == CellKey(-1, 0)
  {
    hide Cell;
    UnitCell(0.0, 0);
    UnitCell(0.5, 0);
    UnitCell(-0.1, -1);
  }

  lemma HiddenDistances()
    ensures DistSq(Point(-0.1, 0.0), Point(0.0, 0.0)) == 0.01 && DistSq(Point(0.5, 0.5), Point(0.0, 0.0)) == 0.5
  {
    assert Sq(-0.1) == 0.01 && Sq(0.5) == 0.25 && Sq(0.0) == 0.0;
  }

  /** The answer need not hold the nearest point: here the only one is a point in the query's own cell,
      and a closer one just across the cell's border is missed. */
  lemma NearestCanBeMissed(ids: seq<string>)
    ensures Closer(Hidden(), Point(0.0, 0.0), "near", "far")
    ensures IsAnswer(Hidden(), Point(0.0, 0.0), 1.0, 1, ids) <==> ids == ["far"]
    ensures IsAnswer(Hidden(), Point(0.0, 0.0), 1.0, 1, ids) ==> !Nearest(Hidden(), Point(0.0, 0.0), ids)
  {
    HiddenAnswer();
    hide *;
    HiddenCloser();
    SomeAnswer(Hidden(), Point(0.0, 0.0), 1.0, 1, ["far"], 0);
    if IsAnswer(Hidden(), Point(0.0, 0.0), 1.0, 1, ids) { OneAnswer(Hidden(), Point(0.0, 0.0), 1.0, 1, ids, ["far"]); }
  }

  lemma HiddenCloser()
    ensures Closer(Hidden(), Point(0.0, 0.0), "near", "far") && !Nearest(Hidden(), Point(0.0, 0.0), ["far"])
  {
    hide DistSq;
    HiddenDistances();
    assert !Closer(Hidden(), Point(0.0, 0.0), "far", "near");
    var ids := ["far"];
    assert "near" !in ids && ids[0] == "far";
  }

  lemma HiddenAnswer()
    ensures Answers(Hidden(), Point(0.0, 0.0), 1.0, 1, ["far"], 0)
  {
    hide CellOf, DistSq;
    HiddenDistances();
    HiddenCells();
    assert Scale(0, 1.0) == 0.0 && Sq(0.0) == 0.0;
    assert |Hidden()| == 2 by {
      assert Hidden().Keys == {"far", "near"};
      assert |Hidden()| == |Hidden().Keys|;
    }
  }
}
