/** The client's tile grid: which cells of a map are road, and where a road goes on from a cell. */
module TileMap {
  import opened Wrappers
  import opened Geometry

  /** A road along a row, or along a column, of cells. */
  datatype Road = Horizontal(x0: int, y0: int, x1: int) | Vertical(x0: int, y0: int, y1: int)

  datatype Building = Building(x: int, y: int, w: nat, h: nat)

  datatype Tile = Tile(road: bool, u: bool, r: bool, d: bool, l: bool)

  const DEF_TILE := Tile(false, false, false, false, false)

  function Left(r: Road): int { if r.Horizontal? then Min(r.x0, r.x1) else r.x0 }

  function Right(r: Road): int { if r.Horizontal? then Max(r.x0, r.x1) else r.x0 }

  function Top(r: Road): int { if r.Vertical? then Min(r.y0, r.y1) else r.y0 }

  function Bottom(r: Road): int { if r.Vertical? then Max(r.y0, r.y1) else r.y0 }

  predicate Covers(r: Road, x: int, y: int) { Left(r) <= x <= Right(r) && Top(r) <= y <= Bottom(r) }

  // ---------------------------------------------------------------------------------------------
  // What the grid shows

  ghost predicate OnRoad(roads: seq<Road>, x: int, y: int) {
    exists r :: r in roads && Covers(r, x, y)
  }

  /** Some horizontal road goes from (x, y) to the next cell of the row. */
  ghost predicate GoesRight(roads: seq<Road>, x: int, y: int) {
    exists r :: r in roads && r.Horizontal? && Covers(r, x, y) && Covers(r, x + 1, y)
  }

  /** Some vertical road goes from (x, y) to the next cell of the column. */
  ghost predicate GoesDown(roads: seq<Road>, x: int, y: int) {
    exists r :: r in roads && r.Vertical? && Covers(r, x, y) && Covers(r, x, y + 1)
  }

  ghost function TileAt(roads: seq<Road>, x: int, y: int): Tile {
    Tile(OnRoad(roads, x, y), GoesDown(roads, x, y - 1), GoesRight(roads, x, y), GoesDown(roads, x, y),
        GoesRight(roads, x - 1, y))
  }

  /** A tile after one more road is drawn. */
  function Marked(t: Tile, r: Road, x: int, y: int): Tile {
    if !Covers(r, x, y) then t
    else if r.Horizontal?
    then t.(road := true, l := t.l || x != Left(r), r := t.r || x != Right(r))
    else t.(road := true, u := t.u || y != Top(r), d := t.d || y != Bottom(r))
  }

  lemma OneMoreRoad(roads: seq<Road>, r: Road, x: int, y: int)
    ensures TileAt(roads + [r], x, y) == Marked(TileAt(roads, x, y), r, x, y)
  {
    var more := roads + [r];
    assert forall q :: q in more <==> q in roads || q == r;
    assert OnRoad(more, x, y) <==> OnRoad(roads, x, y) || Covers(r, x, y);
    RightOneMore(roads, r, x, y);
    RightOneMore(roads, r, x - 1, y);
    DownOneMore(roads, r, x, y);
    DownOneMore(roads, r, x, y - 1);
  }

  lemma RightOneMore(roads: seq<Road>, r: Road, x: int, y: int)
    ensures GoesRight(roads + [r], x, y) <==>
        GoesRight(roads, x, y) || (r.Horizontal? && Covers(r, x, y) && Covers(r, x + 1, y))
  {
  }

  lemma DownOneMore(roads: seq<Road>, r: Road, x: int, y: int)
    ensures GoesDown(roads + [r], x, y) <==>
        GoesDown(roads, x, y) || (r.Vertical? && Covers(r, x, y) && Covers(r, x, y + 1))
  {
  }

  // ---------------------------------------------------------------------------------------------
  // Bounds

  /** The smallest of some numbers. */
  ghost predicate IsMin(m: int, s: seq<int>) { m in s && forall v :: v in s ==> m <= v }

  ghost predicate IsMax(m: int, s: seq<int>) { m in s && forall v :: v in s ==> v <= m }

  method MinOf(s: seq<int>) returns (m: int)
    requires s != []
    ensures IsMin(m, s)
  {
    m := s[0];
    for i := 1 to |s|
      invariant m in s[..i] && forall v :: v in s[..i] ==> m <= v
    {
      assert s[..i + 1] == s[..i] + [s[i]];
      m := Min(m, s[i]);
    }
    assert s[..|s|] == s;
  }

  method MaxOf(s: seq<int>) returns (m: int)
    requires s != []
    ensures IsMax(m, s)
  {
    m := s[0];
    for i := 1 to |s|
      invariant m in s[..i] && forall v :: v in s[..i] ==> v <= m
    {
      assert s[..i + 1] == s[..i] + [s[i]];
      m := Max(m, s[i]);
    }
    assert s[..|s|] == s;
  }

  function West(b: Building): int { b.x }

  function East(b: Building): int { b.x + b.w }

  function North(b: Building): int { b.y }

  function South(b: Building): int { b.y + b.h }

  /** One edge of every road, and one of every building. */
  function Edges(roads: seq<Road>, buildings: seq<Building>, edge: Road -> int, side: Building -> int): seq<int> {
    seq(|roads|, i requires 0 <= i < |roads| => edge(roads[i]))
    + seq(|buildings|, i requires 0 <= i < |buildings| => side(buildings[i]))
  }

  lemma EdgesListed(roads: seq<Road>, buildings: seq<Building>, edge: Road -> int, side: Building -> int)
    ensures forall r :: r in roads ==> edge(r) in Edges(roads, buildings, edge, side)
    ensures forall b :: b in buildings ==> side(b) in Edges(roads, buildings, edge, side)
    ensures roads != [] || buildings != [] ==> Edges(roads, buildings, edge, side) != []
  {
    var es := Edges(roads, buildings, edge, side);
    forall r | r in roads ensures edge(r) in es {
      var i: nat :| i < |roads| && roads[i] == r;
      assert es[i] == edge(r);
    }
    forall b | b in buildings ensures side(b) in es {
      var i: nat :| i < |buildings| && buildings[i] == b;
      assert es[|roads| + i] == side(b);
    }
  }

  lemma EdgesAreEdges(v: int, roads: seq<Road>, buildings: seq<Building>, edge: Road -> int, side: Building -> int)
    requires v in Edges(roads, buildings, edge, side)
    ensures (exists r :: r in roads && edge(r) == v) || (exists b :: b in buildings && side(b) == v)
  {
  }

  datatype Bounds = Bounds(xmin: int, xmax: int, ymin: int, ymax: int)

  /** The smallest rectangle of cells with all roads and buildings. */
  ghost predicate AreBounds(b: Bounds, roads: seq<Road>, buildings: seq<Building>) {
    && IsMin(b.xmin, Edges(roads, buildings, Left, West)) && IsMax(b.xmax, Edges(roads, buildings, Right, East))
    && IsMin(b.ymin, Edges(roads, buildings, Top, North)) && IsMax(b.ymax, Edges(roads, buildings, Bottom, South))
  }

  /** Roads and buildings are within the bounds. */
  lemma BoundsHold(b: Bounds, roads: seq<Road>, buildings: seq<Building>)
    requires AreBounds(b, roads, buildings)
    ensures forall r :: r in roads ==>
        b.xmin <= Left(r) && Right(r) <= b.xmax && b.ymin <= Top(r) && Bottom(r) <= b.ymax
    ensures b.xmin <= b.xmax && b.ymin <= b.ymax
  {
    EdgesListed(roads, buildings, Left, West);
    EdgesListed(roads, buildings, Right, East);
    EdgesListed(roads, buildings, Top, North);
    EdgesListed(roads, buildings, Bottom, South);
    EdgesAreEdges(b.xmin, roads, buildings, Left, West);
    if r :| r in roads {
      assert Left(r) <= Right(r) && Top(r) <= Bottom(r);
    } else {
      var q :| q in buildings && West(q) == b.xmin;
      assert East(q) <= b.xmax && b.ymin <= North(q) <= South(q) <= b.ymax;
    }
  }

  // ---------------------------------------------------------------------------------------------
  // Drawing

  /** The road is drawn cell by cell; every cell of the grid is as it should be after it. */
  method DrawRoad(tiles: array2<Tile>, r: Road, b: Bounds)
    requires tiles.Length0 == b.ymax - b.ymin + 1 && tiles.Length1 == b.xmax - b.xmin + 1
    requires b.xmin <= Left(r) && Right(r) <= b.xmax && b.ymin <= Top(r) && Bottom(r) <= b.ymax
    modifies tiles
    ensures forall y, x :: 0 <= y < tiles.Length0 && 0 <= x < tiles.Length1 ==>
              tiles[y, x] == Marked(old(tiles[y, x]), r, x + b.xmin, y + b.ymin)
  {
    var rh := r.Horizontal?;
    var ss := if rh then r.x0 else r.y0;
    var ee := if rh then r.x1 else r.y1;
    var s, e := Min(ss, ee), Max(ss, ee);
    var z := s;
    while z <= e
      invariant s <= z <= e + 1
      invariant forall y, x :: 0 <= y < tiles.Length0 && 0 <= x < tiles.Length1 ==>
        tiles[y, x] == if (if rh then x + b.xmin else y + b.ymin) < z
                       then Marked(old(tiles[y, x]), r, x + b.xmin, y + b.ymin) else old(tiles[y, x])
    {
      var x := (if rh then z else r.x0) - b.xmin;
      var y := (if rh then r.y0 else z) - b.ymin;
      tiles[y, x] := tiles[y, x].(road := true);
      if z != s {
        tiles[y, x] := if rh then tiles[y, x].(l := true) else tiles[y, x].(u := true);
      }
      if z != e {
        tiles[y, x] := if rh then tiles[y, x].(r := true) else tiles[y, x].(d := true);
      }
      z := z + 1;
    }
  }

  /** The grid shows exactly where the roads are and where they go on. */
  ghost predicate IsGrid(tiles: array2<Tile>, b: Bounds, roads: seq<Road>)
    reads tiles
  {
    && tiles.Length0 == b.ymax - b.ymin + 1 && tiles.Length1 == b.xmax - b.xmin + 1
    && forall y, x :: 0 <= y < tiles.Length0 && 0 <= x < tiles.Length1 ==>
      tiles[y, x] == TileAt(roads, x + b.xmin, y + b.ymin)
  }

  /** The bounds and the grid of a map.  With nothing on the map there are none and the grid is empty. */
  method LoadMap(roads: seq<Road>, buildings: seq<Building>) returns (r: Option<Bounds>, tiles: array2<Tile>)
    ensures fresh(tiles)
    ensures r.None? <==> roads == [] && buildings == []
    ensures if r.Some? then AreBounds(r.value, roads, buildings) && IsGrid(tiles, r.value, roads)
            else tiles.Length0 == 0 && tiles.Length1 == 0
  {
    if roads == [] && buildings == [] {
      tiles := new Tile[0, 0];
      return None, tiles;
    }
    var b := BoundsOf(roads, buildings);
    BoundsHold(b, roads, buildings);
    tiles := DrawRoads(roads, b);
    return Some(b), tiles;
  }

  method BoundsOf(roads: seq<Road>, buildings: seq<Building>) returns (b: Bounds)
    requires roads != [] || buildings != []
    ensures AreBounds(b, roads, buildings)
  {
    EdgesListed(roads, buildings, Left, West);
    EdgesListed(roads, buildings, Right, East);
    EdgesListed(roads, buildings, Top, North);
    EdgesListed(roads, buildings, Bottom, South);
    var xmin := MinOf(Edges(roads, buildings, Left, West));
    var xmax := MaxOf(Edges(roads, buildings, Right, East));
    var ymin := MinOf(Edges(roads, buildings, Top, North));
    var ymax := MaxOf(Edges(roads, buildings, Bottom, South));
    b := Bounds(xmin, xmax, ymin, ymax);
  }

  method DrawRoads(roads: seq<Road>, b: Bounds) returns (tiles: array2<Tile>)
    requires b.xmin <= b.xmax && b.ymin <= b.ymax
    requires forall r :: r in roads ==>
        b.xmin <= Left(r) && Right(r) <= b.xmax && b.ymin <= Top(r) && Bottom(r) <= b.ymax
    ensures fresh(tiles) && IsGrid(tiles, b, roads)
  {
    tiles := new Tile[b.ymax - b.ymin + 1, b.xmax - b.xmin + 1]((_, _) => DEF_TILE);
    hide TileAt, Marked;
    NoRoads();
    for i := 0 to |roads|
      invariant fresh(tiles) && IsGrid(tiles, b, roads[..i])
    {
      DrawNext(tiles, b, roads[..i], roads[i]);
      assert roads[..i + 1] == roads[..i] + [roads[i]];
    }
    assert roads[..|roads|] == roads;
  }

  method DrawNext(tiles: array2<Tile>, b: Bounds, ghost roads: seq<Road>, r: Road)
    requires IsGrid(tiles, b, roads)
    requires b.xmin <= Left(r) && Right(r) <= b.xmax && b.ymin <= Top(r) && Bottom(r) <= b.ymax
    modifies tiles
    ensures IsGrid(tiles, b, roads + [r])
  {
    hide TileAt, Marked;
    DrawRoad(tiles, r, b);
    forall y, x | 0 <= y < tiles.Length0 && 0 <= x < tiles.Length1
      ensures tiles[y, x] == TileAt(roads + [r], x + b.xmin, y + b.ymin)
    {
      OneMoreRoad(roads, r, x + b.xmin, y + b.ymin);
    }
  }

  lemma NoRoads()
    ensures forall x, y :: TileAt([], x, y) == DEF_TILE
  {
  }

  // ---------------------------------------------------------------------------------------------
  // Bounds and marks in the coordinates of the roads

  predicate Spans(a: int, v: int, b: int) { a <= v <= b || b <= v <= a }

  /** The road lies on the cell. */
  predicate LiesOn(r: Road, x: int, y: int) {
    match r
    case Horizontal(x0, y0, x1) => y == y0 && Spans(x0, x, x1)
    case Vertical(x0, y0, y1) => x == x0 && Spans(y0, y, y1)
  }

  /** A cell is marked as road if some road lies on it, to the left and right if a horizontal road lies on it and on the
      next cell there, and up and down if a vertical road does. */
  lemma TileShows(tiles: array2<Tile>, b: Bounds, roads: seq<Road>, y: nat, x: nat)
    requires IsGrid(tiles, b, roads) && y < tiles.Length0 && x < tiles.Length1
    ensures var cx, cy, t := x + b.xmin, y + b.ymin, tiles[y, x];
            && (t.road <==> exists r :: r in roads && LiesOn(r, cx, cy))
            && (t.l <==> exists r :: r in roads && r.Horizontal? && LiesOn(r, cx, cy) && LiesOn(r, cx - 1, cy))
            && (t.r <==> exists r :: r in roads && r.Horizontal? && LiesOn(r, cx, cy) && LiesOn(r, cx + 1, cy))
            && (t.u <==> exists r :: r in roads && r.Vertical? && LiesOn(r, cx, cy) && LiesOn(r, cx, cy - 1))
            && (t.d <==> exists r :: r in roads && r.Vertical? && LiesOn(r, cx, cy) && LiesOn(r, cx, cy + 1))
  {
    assert forall r: Road, i, j :: Covers(r, i, j) <==> LiesOn(r, i, j);
    hide Covers, LiesOn;
  }

  /** The cells of a road from one end to the other, and of a building with the row and the column behind it. */
  predicate Within(b: Bounds, x: int, y: int) { b.xmin <= x <= b.xmax && b.ymin <= y <= b.ymax }

  function FirstEnd(r: Road): (int, int) { (r.x0, r.y0) }

  function OtherEnd(r: Road): (int, int) {
    match r case Horizontal(_, y0, x1) => (x1, y0) case Vertical(x0, _, y1) => (x0, y1)
  }

  /** The bounds hold both ends of every road and both corners of every building. */
  lemma BoundsContain(b: Bounds, roads: seq<Road>, buildings: seq<Building>)
    requires AreBounds(b, roads, buildings)
    ensures forall r :: r in roads ==>
        Within(b, FirstEnd(r).0, FirstEnd(r).1) && Within(b, OtherEnd(r).0, OtherEnd(r).1)
    ensures forall h :: h in buildings ==> Within(b, h.x, h.y) && Within(b, h.x + h.w, h.y + h.h)
  {
    BoundsHold(b, roads, buildings);
    EdgesListed(roads, buildings, Left, West);
    EdgesListed(roads, buildings, Right, East);
    EdgesListed(roads, buildings, Top, North);
    EdgesListed(roads, buildings, Bottom, South);
    forall h | h in buildings ensures Within(b, h.x, h.y) && Within(b, h.x + h.w, h.y + h.h) {
      assert West(h) in Edges(roads, buildings, Left, West) && East(h) in Edges(roads, buildings, Right, East);
      assert North(h) in Edges(roads, buildings, Top, North) && South(h) in Edges(roads, buildings, Bottom, South);
    }
  }

  /** No smaller bounds do: other bounds with the same in them leave none of these out. */
  lemma BoundsAreSmallest(b: Bounds, c: Bounds, roads: seq<Road>, buildings: seq<Building>)
    requires AreBounds(b, roads, buildings)
    requires forall r :: r in roads ==>
        Within(c, FirstEnd(r).0, FirstEnd(r).1) && Within(c, OtherEnd(r).0, OtherEnd(r).1)
    requires forall h :: h in buildings ==> Within(c, h.x, h.y) && Within(c, h.x + h.w, h.y + h.h)
    ensures c.xmin <= b.xmin && b.xmax <= c.xmax && c.ymin <= b.ymin && b.ymax <= c.ymax
  {
    EdgesAreEdges(b.xmin, roads, buildings, Left, West);
    EdgesAreEdges(b.xmax, roads, buildings, Right, East);
    EdgesAreEdges(b.ymin, roads, buildings, Top, North);
    EdgesAreEdges(b.ymax, roads, buildings, Bottom, South);
  }

  // ---------------------------------------------------------------------------------------------
  // Neighbours, and the order of roads

  /** What goes right from a cell comes from the left in the next, and down and up likewise. */
  lemma NeighboursAgree(tiles: array2<Tile>, b: Bounds, roads: seq<Road>, y: nat, x: nat)
    requires IsGrid(tiles, b, roads) && y < tiles.Length0 && x < tiles.Length1
    ensures x + 1 < tiles.Length1 ==> (tiles[y, x].r <==> tiles[y, x + 1].l)
    ensures y + 1 < tiles.Length0 ==> (tiles[y, x].d <==> tiles[y + 1, x].u)
  {
  }

  /** No road leads off the grid. */
  lemma NothingLeadsOff(tiles: array2<Tile>, b: Bounds, roads: seq<Road>, buildings: seq<Building>, y: nat, x: nat)
    requires AreBounds(b, roads, buildings) && IsGrid(tiles, b, roads) && y < tiles.Length0 && x < tiles.Length1
    ensures tiles[y, x].l ==> x > 0
    ensures tiles[y, x].r ==> x + 1 < tiles.Length1
    ensures tiles[y, x].u ==> y > 0
    ensures tiles[y, x].d ==> y + 1 < tiles.Length0
  {
    BoundsHold(b, roads, buildings);
  }

  lemma SameRoadsSameBounds(b: Bounds, c: Bounds, roads: seq<Road>, others: seq<Road>, buildings: seq<Building>)
    requires AreBounds(b, roads, buildings) && AreBounds(c, others, buildings)
    requires forall r :: r in roads <==> r in others
    ensures b == c
  {
    EdgesWithin(b, roads, others, buildings);
    EdgesWithin(c, others, roads, buildings);
  }

  lemma EdgesWithin(b: Bounds, roads: seq<Road>, others: seq<Road>, buildings: seq<Building>)
    requires AreBounds(b, roads, buildings) && forall r :: r in roads ==> r in others
    ensures b.xmin in Edges(others, buildings, Left, West) && b.xmax in Edges(others, buildings, Right, East)
    ensures b.ymin in Edges(others, buildings, Top, North) && b.ymax in Edges(others, buildings, Bottom, South)
  {
    EdgeWithin(b.xmin, roads, others, buildings, Left, West);
    EdgeWithin(b.xmax, roads, others, buildings, Right, East);
    EdgeWithin(b.ymin, roads, others, buildings, Top, North);
    EdgeWithin(b.ymax, roads, others, buildings, Bottom, South);
  }

  lemma EdgeWithin(v: int, roads: seq<Road>, others: seq<Road>, buildings: seq<Building>, edge: Road -> int,
      side: Building -> int)
    requires v in Edges(roads, buildings, edge, side) && forall r :: r in roads ==> r in others
    ensures v in Edges(others, buildings, edge, side)
  {
    EdgesAreEdges(v, roads, buildings, edge, side);
    EdgesListed(others, buildings, edge, side);
  }

  /** The order of the roads, and listing one twice, makes no difference to the grid. */
  lemma OrderDoesNotMatter(tiles: array2<Tile>, others: array2<Tile>, b: Bounds, roads: seq<Road>, reordered: seq<Road>)
    requires IsGrid(tiles, b, roads) && IsGrid(others, b, reordered)
    requires forall r :: r in roads <==> r in reordered
    ensures forall y, x :: 0 <= y < tiles.Length0 && 0 <= x < tiles.Length1 ==> tiles[y, x] == others[y, x]
  {
  }

}
