/** Roads as rectangles, and where a dog that moves over them comes to rest. */
module RoadMap {
  import opened Wrappers
  import opened Geometry

  const BORDER_WIDTH := 0.4
  const MILLISECONDS_IN_SECOND := 1000.0

  /** A road between two grid points on a common line, widened by the border on every side. */
  datatype Road = Road(x0: int, y0: int, x1: int, y1: int, id: nat) {
    function Begin(): Vec { Vec(Min(x0, x1) as real - BORDER_WIDTH, Min(y0, y1) as real - BORDER_WIDTH) }

    function End(): Vec { Vec(Max(x0, x1) as real + BORDER_WIDTH, Max(y0, y1) as real + BORDER_WIDTH) }

    predicate Contains(p: Vec) {
      Begin().x <= p.x <= End().x && Begin().y <= p.y <= End().y
    }
  }

  function Horizontal(x: int, y: int, endX: int, id: nat): Road { Road(x, y, endX, y, id) }

  function Vertical(x: int, y: int, endY: int, id: nat): Road { Road(x, y, x, endY, id) }

  datatype Office = Office(id: string, position: Vec)

  datatype GameMap = GameMap(
    id: string,
    roads: seq<Road>,
    offices: seq<Office>,
    dogSpeed: real,
    bagCapacity: nat,
    lootValues: seq<nat>)
  {
    /** Road ids come from one counter; positions are drawn from the roads, so there is at least one. */
    ghost predicate Valid() {
      roads != [] && DistinctIds(roads)
    }
  }

  ghost predicate DistinctIds(roads: seq<Road>) {
    forall i, j :: 0 <= i < j < |roads| ==> roads[i].id != roads[j].id
  }

  // ---------------------------------------------------------------------------------------------
  // Finding a road

  predicate Accepts(road: Road, p: Vec, excepted: Option<nat>) {
    excepted != Some(road.id) && road.Contains(p)
  }

  /** The first road with the point on it, other than the excepted one. */
  function RoadAt(roads: seq<Road>, p: Vec, excepted: Option<nat>): (r: Option<Road>)
    ensures r.Some? ==> r.value in roads && Accepts(r.value, p, excepted)
    ensures r.None? ==> forall road :: road in roads ==> !Accepts(road, p, excepted)
  {
    if roads == [] then None
    else if Accepts(roads[0], p, excepted) then Some(roads[0])
    else RoadAt(roads[1..], p, excepted)
  }

  /** No road before the one found is accepted. */
  lemma {:induction false} RoadAtIsFirst(roads: seq<Road>, p: Vec, excepted: Option<nat>) returns (i: nat)
    requires RoadAt(roads, p, excepted).Some?
    ensures i < |roads| && RoadAt(roads, p, excepted) == Some(roads[i])
    ensures forall j :: 0 <= j < i ==> !Accepts(roads[j], p, excepted)
  {
    if Accepts(roads[0], p, excepted) {
      i := 0;
    } else {
      var k := RoadAtIsFirst(roads[1..], p, excepted);
      i := k + 1;
      assert forall j :: 1 <= j < i ==> roads[j] == roads[1..][j - 1];
    }
  }

  method FindRoadByPosition(roads: seq<Road>, p: Vec, excepted: Option<nat>) returns (r: Option<Road>)
    ensures r == RoadAt(roads, p, excepted)
  {
    var i := 0;
    while i < |roads|
      invariant i <= |roads|
      invariant RoadAt(roads, p, excepted) == RoadAt(roads[i..], p, excepted)
    {
      if Accepts(roads[i], p, excepted) {
        return Some(roads[i]);
      }
      i := i + 1;
    }
    return None;
  }

  ghost predicate OnSomeRoad(roads: seq<Road>, p: Vec) {
    exists road :: road in roads && road.Contains(p)
  }

  /** A point drawn on the road picked by `pick`, at the given fractions of its sides. */
  function RandomPosition(roads: seq<Road>, pick: nat, fx: real, fy: real): Vec
    requires roads != []
  {
    var road := roads[pick % |roads|];
    Vec(road.Begin().x + Times(fx, road.End().x - road.Begin().x),
        road.Begin().y + Times(fy, road.End().y - road.Begin().y))
  }

  lemma RandomPositionIsOnRoad(roads: seq<Road>, pick: nat, fx: real, fy: real)
    requires roads != [] && 0.0 <= fx <= 1.0 && 0.0 <= fy <= 1.0
    ensures OnSomeRoad(roads, RandomPosition(roads, pick, fx, fy))
  {
    var road := roads[pick % |roads|];
    FractionOf(fx, road.End().x - road.Begin().x);
    FractionOf(fy, road.End().y - road.Begin().y);
    assert road in roads && road.Contains(RandomPosition(roads, pick, fx, fy));
  }

  lemma FractionOf(f: real, d: real)
    requires 0.0 <= f <= 1.0 && 0.0 <= d
    ensures 0.0 <= Times(f, d) <= d
  {
    ProductSign(f, d, Times(f, d));
    ProductSign(1.0 - f, d, d - Times(f, d));
  }

  // ---------------------------------------------------------------------------------------------
  // One move

  /** The point of the road nearest to p, and the speed left there: a component that reaches the border is lost. */
  function ClampTo(road: Road, p: Vec): Vec {
    Vec(if p.x <= road.Begin().x then road.Begin().x else if p.x >= road.End().x then road.End().x else p.x,
        if p.y >= road.End().y then road.End().y else if p.y <= road.Begin().y then road.Begin().y else p.y)
  }

  function SpeedOn(road: Road, p: Vec, speed: Vec): Vec {
    Vec(if p.x <= road.Begin().x || p.x >= road.End().x then 0.0 else speed.x,
        if p.y >= road.End().y || p.y <= road.Begin().y then 0.0 else speed.y)
  }

  /** Where a dog standing at pos with this speed ends, if it means to go to `target`.  Lengths are compared
      by their squares. */
  function Travel(roads: seq<Road>, pos: Vec, target: Vec, speed: Vec): (Vec, Vec) {
    match RoadAt(roads, pos, None)
    case None => (pos, ORIGIN)
    case Some(current) =>
      var here := ClampTo(current, target);
      var speedHere := SpeedOn(current, target, speed);
      match RoadAt(roads, target, Some(current.id))
      case None => Prefer(pos, here, speedHere, pos, ORIGIN)
      case Some(other) => Prefer(pos, here, speedHere, ClampTo(other, target), SpeedOn(other, target, speed))
  }

  function Prefer(pos: Vec, here: Vec, speedHere: Vec, there: Vec, speedThere: Vec): (Vec, Vec) {
    if SqDist(here, pos) > SqDist(there, pos) || SqLen(speedHere) > SqLen(speedThere)
    then (here, speedHere)
    else (there, speedThere)
  }

  function Way(speed: real, deltaMs: nat): real { speed * deltaMs as real / MILLISECONDS_IN_SECOND }

  function Target(pos: Vec, speed: Vec, deltaMs: nat): Vec {
    Vec(pos.x + Way(speed.x, deltaMs), pos.y + Way(speed.y, deltaMs))
  }

  predicate AxisAligned(v: Vec) { v.x == 0.0 || v.y == 0.0 }

  /** The target lies along the axis of the speed. */
  predicate AlongAxis(pos: Vec, target: Vec, speed: Vec) {
    (target.y == pos.y && speed.y == 0.0) || (target.x == pos.x && speed.x == 0.0)
  }

  lemma TargetAlongAxis(pos: Vec, speed: Vec, deltaMs: nat)
    requires AxisAligned(speed)
    ensures AlongAxis(pos, Target(pos, speed, deltaMs), speed)
  {
  }

  /** q lies on the axis-parallel segment from p to r. */
  predicate Between(p: Vec, q: Vec, r: Vec) {
    && (p.x <= q.x <= r.x || r.x <= q.x <= p.x)
    && (p.y <= q.y <= r.y || r.y <= q.y <= p.y)
  }

  lemma ClampFacts(road: Road, pos: Vec, target: Vec, speed: Vec)
    requires road.Contains(pos) && AlongAxis(pos, target, speed)
    ensures road.Contains(ClampTo(road, target))
    ensures Between(pos, ClampTo(road, target), target)
    ensures road.Contains(target) <==> ClampTo(road, target) == target
    ensures !road.Contains(target) ==> SpeedOn(road, target, speed) == ORIGIN
    ensures AxisAligned(SpeedOn(road, target, speed))
  {
  }

  lemma SqDistBySquares(p: Vec, q: Vec)
    ensures SqDist(p, q) == Square(p.x - q.x) + Square(p.y - q.y)
  {
  }

  lemma DistanceSign(p: Vec, q: Vec)
    ensures SqDist(p, q) >= 0.0 && (SqDist(p, q) > 0.0 <==> p != q)
  {
    SqDistBySquares(p, q);
    SquareSign(p.x - q.x);
    SquareSign(p.y - q.y);
    ZeroSquare(p.x - q.x);
    ZeroSquare(p.y - q.y);
  }

  lemma ZeroSquare(d: real)
    ensures d == 0.0 ==> Square(d) == 0.0
  {
  }

  lemma PreferSame(pos: Vec, p: Vec, speedHere: Vec, speedThere: Vec)
    ensures Prefer(pos, p, speedHere, p, speedThere).0 == p
  {
  }

  /** The other road wins when it is not nearer and the current one leaves no speed. */
  lemma PreferThere(pos: Vec, here: Vec, there: Vec, speedThere: Vec)
    requires Between(pos, here, there)
    ensures Prefer(pos, here, ORIGIN, there, speedThere) == (there, speedThere)
  {
    SqDistBySquares(here, pos);
    SqDistBySquares(there, pos);
    SmallerSquare(here.x - pos.x, there.x - pos.x);
    SmallerSquare(here.y - pos.y, there.y - pos.y);
    LengthSign(ORIGIN);
    LengthSign(speedThere);
    hide SqDist, Square;
    assert SqLen(ORIGIN) == 0.0;
    hide SqLen;
  }

  /** With nothing to gain elsewhere the dog ends on the current road. */
  lemma PreferHere(pos: Vec, here: Vec, speedHere: Vec)
    ensures Prefer(pos, here, speedHere, pos, ORIGIN).0 == here
    ensures Prefer(pos, here, speedHere, pos, ORIGIN).1 == speedHere ||
        Prefer(pos, here, speedHere, pos, ORIGIN).1 == ORIGIN
  {
    DistanceSign(here, pos);
    DistanceSign(pos, pos);
  }

  /** What a dog on a road reaches in one move: exactly its target if that lies on some road; otherwise
      the clamp to the first road under its old position, with no speed left. */
  lemma TravelFromRoad(roads: seq<Road>, pos: Vec, target: Vec, speed: Vec)
    requires DistinctIds(roads) && RoadAt(roads, pos, None).Some? && AlongAxis(pos, target, speed)
    ensures var current := RoadAt(roads, pos, None).value;
            var (pos', speed') := Travel(roads, pos, target, speed);
            if OnSomeRoad(roads, target) then pos' == target
            else pos' == ClampTo(current, target) && speed' == ORIGIN
  {
    hide SqDist, SqLen, Prefer;
    var current := RoadAt(roads, pos, None).value;
    var here, speedHere := ClampTo(current, target), SpeedOn(current, target, speed);
    ClampFacts(current, pos, target, speed);
    match RoadAt(roads, target, Some(current.id)) {
      case Some(other) =>
        InsideIsUnclamped(other, target);
        if current.Contains(target) {
          PreferSame(pos, target, speedHere, SpeedOn(other, target, speed));
        } else {
          PreferThere(pos, here, target, SpeedOn(other, target, speed));
        }
        assert OnSomeRoad(roads, target);
      case None =>
        PreferHere(pos, here, speedHere);
        OnlyCurrentRoad(roads, target, current);
    }
  }

  lemma InsideIsUnclamped(road: Road, p: Vec)
    requires road.Contains(p)
    ensures ClampTo(road, p) == p
  {
  }

  /** If no road but the current one has the point, it is on some road exactly when it is on the current one. */
  lemma OnlyCurrentRoad(roads: seq<Road>, p: Vec, current: Road)
    requires DistinctIds(roads) && current in roads && RoadAt(roads, p, Some(current.id)).None?
    ensures OnSomeRoad(roads, p) <==> current.Contains(p)
  {
  }

  /** The safety of a move, on a road or off it, for any axis-aligned speed. */
  lemma TravelIsSafe(roads: seq<Road>, pos: Vec, target: Vec, speed: Vec)
    requires DistinctIds(roads) && AlongAxis(pos, target, speed)
    ensures var (pos', speed') := Travel(roads, pos, target, speed);
            && Between(pos, pos', target)
            && (OnSomeRoad(roads, pos) ==> OnSomeRoad(roads, pos'))
            && (!OnSomeRoad(roads, pos) ==> pos' == pos && speed' == ORIGIN)
            && (OnSomeRoad(roads, pos) ==> (pos' == target <==> OnSomeRoad(roads, target)))
            && (OnSomeRoad(roads, pos) && pos' != target ==> speed' == ORIGIN)
            && AxisAligned(speed')
  {
    match RoadAt(roads, pos, None) {
      case None =>
      case Some(current) =>
        assert current in roads && current.Contains(pos);
        ClampFacts(current, pos, target, speed);
        TravelFromRoad(roads, pos, target, speed);
        TravelSpeed(roads, pos, target, speed);
        assert current.Contains(ClampTo(current, target));
    }
  }

  /** Each component of the speed is kept or lost. */
  lemma TravelSpeed(roads: seq<Road>, pos: Vec, target: Vec, speed: Vec)
    ensures var (_, speed') := Travel(roads, pos, target, speed);
            (speed'.x == speed.x || speed'.x == 0.0) && (speed'.y == speed.y || speed'.y == 0.0)
  {
  }

  /** No point of the road is nearer to p than the clamp. */
  lemma ClampIsNearest(road: Road, p: Vec, q: Vec)
    requires road.Contains(q)
    ensures SqDist(ClampTo(road, p), p) <= SqDist(q, p)
  {
    var c := ClampTo(road, p);
    SqDistBySquares(c, p);
    SqDistBySquares(q, p);
    SmallerSquare(c.x - p.x, q.x - p.x);
    SmallerSquare(c.y - p.y, q.y - p.y);
  }

  /** A dog that cannot reach its target stops at the point of its road nearest to it. */
  lemma StopsAtNearestPoint(roads: seq<Road>, pos: Vec, target: Vec, speed: Vec, q: Vec)
    requires DistinctIds(roads) && RoadAt(roads, pos, None).Some? && AlongAxis(pos, target, speed)
    requires !OnSomeRoad(roads, target) && RoadAt(roads, pos, None).value.Contains(q)
    ensures SqDist(Travel(roads, pos, target, speed).0, target) <= SqDist(q, target)
  {
    hide Travel, SqDist;
    TravelFromRoad(roads, pos, target, speed);
    ClampIsNearest(RoadAt(roads, pos, None).value, target, q);
  }
}
