/**
  How far a dog gets in a tick and what is left of its speed, read off the coordinates of the roads and the length
  of the tick.
 */
module Motion {
  import opened Wrappers
  import opened Geometry
  import opened RoadMap
  import opened Dogs

  // ---------------------------------------------------------------------------------------------
  // Roads

  /** The number between a and b nearest to p. */
  lemma Nearby(a: int, b: int, p: real) returns (q: real)
    ensures a as real <= q <= b as real || b as real <= q <= a as real
    ensures Min(a, b) as real - 0.4 <= p <= Max(a, b) as real + 0.4 ==> q - 0.4 <= p <= q + 0.4
  {
    var lo, hi := Min(a, b) as real, Max(a, b) as real;
    q := if p < lo then lo else if p > hi then hi else p;
  }

  /** A road covers exactly the points within 0.4, in each coordinate, of some point between its ends. */
  lemma RoadCovers(road: Road, p: Vec)
    ensures road.Contains(p) <==>
            exists q :: Between(Vec(road.x0 as real, road.y0 as real), q, Vec(road.x1 as real, road.y1 as real)) &&
                q.x - 0.4 <= p.x <= q.x + 0.4 && q.y - 0.4 <= p.y <= q.y + 0.4
  {
    var x := Nearby(road.x0, road.x1, p.x);
    var y := Nearby(road.y0, road.y1, p.y);
    assert Between(Vec(road.x0 as real, road.y0 as real), Vec(x, y), Vec(road.x1 as real, road.y1 as real));
  }

  /** Every point of every road can be drawn. */
  lemma EveryPointIsDrawn(roads: seq<Road>, i: nat, p: Vec)
    requires i < |roads| && roads[i].Contains(p)
    ensures exists pick: nat, fx, fy ::
              0.0 <= fx <= 1.0 && 0.0 <= fy <= 1.0 && RandomPosition(roads, pick, fx, fy) == p
  {
    var road := roads[i];
    var fx := Share(p.x, road.Begin().x, road.End().x);
    var fy := Share(p.y, road.Begin().y, road.End().y);
    assert i % |roads| == i;
    assert RandomPosition(roads, i, fx, fy) == p;
  }

  lemma Share(p: real, lo: real, hi: real) returns (f: real)
    requires lo <= p <= hi && lo < hi
    ensures 0.0 <= f <= 1.0 && lo + Times(f, hi - lo) == p
  {
    f := (p - lo) / (hi - lo);
    Fraction(f, p - lo, hi - lo);
  }

  lemma Fraction(f: real, part: real, whole: real)
    requires 0.0 <= part <= whole && whole > 0.0 && f * whole == part
    ensures 0.0 <= f <= 1.0
  {
    if f < 0.0 {
      ProductPositive(-f, whole, -part);
    } else if f > 1.0 {
      ProductPositive(f - 1.0, whole, part - whole);
    }
  }

  // ---------------------------------------------------------------------------------------------
  // One tick

  /** Road i is the first in the list with the point on it, road `skipped` left aside. */
  ghost predicate FirstAt(roads: seq<Road>, p: Vec, skipped: int, i: nat) {
    && i < |roads| && i != skipped && roads[i].Contains(p)
    && forall j :: 0 <= j < i && j != skipped ==> !roads[j].Contains(p)
  }

  /** The point is short of the borders of the road that this speed leads to. */
  predicate ShortOfBorder(road: Road, p: Vec, speed: Vec) {
    && (speed.x != 0.0 ==> Min(road.x0, road.x1) as real - 0.4 < p.x < Max(road.x0, road.x1) as real + 0.4)
    && (speed.y != 0.0 ==> Min(road.y0, road.y1) as real - 0.4 < p.y < Max(road.y0, road.y1) as real + 0.4)
  }

  lemma FirstIsFound(roads: seq<Road>, p: Vec, i: nat)
    requires FirstAt(roads, p, -1, i)
    ensures RoadAt(roads, p, None) == Some(roads[i])
  {
    assert roads[i] in roads && Accepts(roads[i], p, None);
    var k := RoadAtIsFirst(roads, p, None);
    assert Accepts(roads[k], p, None);
  }

  lemma OtherIsFound(roads: seq<Road>, p: Vec, i: nat, j: nat)
    requires DistinctIds(roads) && i < |roads| && FirstAt(roads, p, i, j)
    ensures RoadAt(roads, p, Some(roads[i].id)) == Some(roads[j])
  {
    var except := Some(roads[i].id);
    assert roads[j] in roads && Accepts(roads[j], p, except);
    var k := RoadAtIsFirst(roads, p, except);
    assert Accepts(roads[k], p, except);
  }

  lemma OtherIsFirst(roads: seq<Road>, p: Vec, i: nat) returns (j: nat)
    requires DistinctIds(roads) && i < |roads| && RoadAt(roads, p, Some(roads[i].id)).Some?
    ensures FirstAt(roads, p, i, j)
  {
    j := RoadAtIsFirst(roads, p, Some(roads[i].id));
    assert Accepts(roads[j], p, Some(roads[i].id));
    forall l | 0 <= l < j && l != i ensures !roads[l].Contains(p) {
      assert !Accepts(roads[l], p, Some(roads[i].id));
    }
  }

  /** For a dog on the roads there is such a road. */
  lemma FirstExists(roads: seq<Road>, p: Vec) returns (i: nat)
    requires OnSomeRoad(roads, p)
    ensures FirstAt(roads, p, -1, i)
  {
    var road :| road in roads && road.Contains(p);
    assert Accepts(road, p, None);
    i := RoadAtIsFirst(roads, p, None);
    assert Accepts(roads[i], p, None);
    forall l | 0 <= l < i ensures !roads[l].Contains(p) {
      assert !Accepts(roads[l], p, None);
    }
  }

  /** Where the dog would be if there were road everywhere. */
  lemma AimIsTarget(p: Vec, v: Vec, ms: nat)
    requires AxisAligned(v)
    ensures Target(p, v, ms) == Vec(p.x + v.x * (ms as real) / 1000.0, p.y + v.y * (ms as real) / 1000.0)
    ensures AlongAxis(p, Target(p, v, ms), v)
  {
    TargetAlongAxis(p, v, ms);
  }

  lemma SpeedByBorder(road: Road, p: Vec, target: Vec, v: Vec)
    requires road.Contains(p) && AlongAxis(p, target, v)
    ensures SpeedOn(road, target, v) == if ShortOfBorder(road, target, v) then v else ORIGIN
    ensures ShortOfBorder(road, target, v) && v != ORIGIN ==> road.Contains(target)
  {
  }

  lemma OriginHasNoLength()
    ensures SqLen(ORIGIN) == 0.0
  {
  }

  lemma PreferEqual(pos: Vec, p: Vec, v: Vec, speedThere: Vec)
    requires speedThere == v || speedThere == ORIGIN
    ensures Prefer(pos, p, v, p, speedThere) == (p, v)
  {
    hide SqDist, SqLen;
    LengthSign(v);
    OriginHasNoLength();
  }

  lemma PreferMoving(pos: Vec, here: Vec, speedHere: Vec)
    ensures Prefer(pos, here, speedHere, pos, ORIGIN) == (here, speedHere)
  {
    hide SqDist, SqLen;
    DistanceSign(here, pos);
    DistanceSign(pos, pos);
    LengthSign(speedHere);
    OriginHasNoLength();
  }

  lemma TravelToOther(roads: seq<Road>, pos: Vec, target: Vec, v: Vec, i: nat, j: nat)
    requires DistinctIds(roads) && FirstAt(roads, pos, -1, i) && FirstAt(roads, target, i, j)
    requires AlongAxis(pos, target, v)
    ensures Travel(roads, pos, target, v).1 ==
            if ShortOfBorder(roads[i], target, v) || ShortOfBorder(roads[j], target, v) then v else ORIGIN
  {
    hide SqDist, SqLen, Prefer;
    FirstIsFound(roads, pos, i);
    OtherIsFound(roads, target, i, j);
    SpeedByBorder(roads[i], pos, target, v);
    ClampFacts(roads[i], pos, target, v);
    InsideIsUnclamped(roads[j], target);
    AtTarget(roads[j], target, v, pos);
    if ShortOfBorder(roads[i], target, v) && v != ORIGIN {
      PreferEqual(pos, target, v, SpeedOn(roads[j], target, v));
    } else {
      PreferThere(pos, ClampTo(roads[i], target), target, SpeedOn(roads[j], target, v));
    }
  }

  lemma AtTarget(road: Road, target: Vec, v: Vec, pos: Vec)
    requires road.Contains(target) && AlongAxis(pos, target, v)
    ensures SpeedOn(road, target, v) == if ShortOfBorder(road, target, v) then v else ORIGIN
  {
  }

  lemma TravelOnRoad(roads: seq<Road>, pos: Vec, target: Vec, v: Vec, i: nat)
    requires DistinctIds(roads) && FirstAt(roads, pos, -1, i) && forall j: nat :: !FirstAt(roads, target, i, j)
    requires AlongAxis(pos, target, v)
    ensures Travel(roads, pos, target, v).1 == if ShortOfBorder(roads[i], target, v) then v else ORIGIN
  {
    hide SqDist, SqLen, Prefer;
    FirstIsFound(roads, pos, i);
    SpeedByBorder(roads[i], pos, target, v);
    if RoadAt(roads, target, Some(roads[i].id)).Some? {
      var j := OtherIsFirst(roads, target, i);
      assert false;
    }
    PreferMoving(pos, ClampTo(roads[i], target), SpeedOn(roads[i], target, v));
  }

  lemma OneFirst(roads: seq<Road>, p: Vec, skipped: int, j: nat, l: nat)
    requires FirstAt(roads, p, skipped, j) && FirstAt(roads, p, skipped, l)
    ensures j == l
  {
  }

  lemma TravelKeepsSpeed(roads: seq<Road>, pos: Vec, target: Vec, v: Vec, i: nat)
    requires DistinctIds(roads) && FirstAt(roads, pos, -1, i) && AlongAxis(pos, target, v)
    ensures Travel(roads, pos, target, v).1 ==
            if ShortOfBorder(roads[i], target, v)
               || exists j: nat :: FirstAt(roads, target, i, j) && ShortOfBorder(roads[j], target, v)
            then v else ORIGIN
  {
    hide Travel, ShortOfBorder;
    if j: nat :| FirstAt(roads, target, i, j) {
      TravelToOther(roads, pos, target, v, i, j);
      forall l: nat | FirstAt(roads, target, i, l) ensures l == j {
        OneFirst(roads, target, i, j, l);
      }
    } else {
      TravelOnRoad(roads, pos, target, v, i);
    }
  }

  /** A dog keeps its speed if its way ends short of the border of the first road under it, or of the first other
      road under its target; else it loses all of it. */
  lemma SpeedAfterTick(roads: seq<Road>, d: DogState, ms: nat, i: nat)
    requires DistinctIds(roads) && AxisAligned(d.speed) && FirstAt(roads, d.position, -1, i)
    ensures var p, v := d.position, d.speed;
            var target := Vec(p.x + v.x * (ms as real) / 1000.0, p.y + v.y * (ms as real) / 1000.0);
            Advanced(roads, d, ms).speed ==
            if ShortOfBorder(roads[i], target, v)
               || exists j: nat :: FirstAt(roads, target, i, j) && ShortOfBorder(roads[j], target, v)
            then v else ORIGIN
  {
    AimIsTarget(d.position, d.speed, ms);
    TravelKeepsSpeed(roads, d.position, Target(d.position, d.speed, ms), d.speed, i);
    hide Travel, Target, FirstAt, ShortOfBorder;
  }

  lemma AimIsAhead(v: Vec, ms: nat)
    ensures v.x <= 0.0 ==> v.x * (ms as real) / 1000.0 <= 0.0
    ensures v.x >= 0.0 ==> v.x * (ms as real) / 1000.0 >= 0.0
    ensures v.y <= 0.0 ==> v.y * (ms as real) / 1000.0 <= 0.0
    ensures v.y >= 0.0 ==> v.y * (ms as real) / 1000.0 >= 0.0
  {
    WayAhead(v.x, ms as real, v.x * (ms as real));
    WayAhead(v.y, ms as real, v.y * (ms as real));
  }

  lemma WayAhead(s: real, t: real, way: real)
    requires t >= 0.0 && way == s * t
    ensures (s <= 0.0 ==> way <= 0.0) && (s >= 0.0 ==> way >= 0.0)
  {
    if s >= 0.0 {
      ProductSign(s, t, way);
    }
    if s <= 0.0 {
      ProductSign(-s, t, -way);
    }
  }

  /** Where a dog that runs off the road with this speed is stopped. */
  lemma StoppedAtBorder(road: Road, p: Vec, target: Vec, v: Vec)
    requires road.Contains(p) && !road.Contains(target) && AlongAxis(p, target, v)
    requires (v.x <= 0.0 ==> target.x <= p.x) && (v.x >= 0.0 ==> target.x >= p.x)
    requires (v.y <= 0.0 ==> target.y <= p.y) && (v.y >= 0.0 ==> target.y >= p.y)
    ensures ClampTo(road, target) ==
            if v.x < 0.0 then Vec(Min(road.x0, road.x1) as real - 0.4, p.y)
            else if v.x > 0.0 then Vec(Max(road.x0, road.x1) as real + 0.4, p.y)
            else if v.y < 0.0 then Vec(p.x, Min(road.y0, road.y1) as real - 0.4)
            else Vec(p.x, Max(road.y0, road.y1) as real + 0.4)
  {
  }

  lemma TargetIsAhead(p: Vec, v: Vec, ms: nat)
    ensures var target := Target(p, v, ms);
            && (v.x <= 0.0 ==> target.x <= p.x) && (v.x >= 0.0 ==> target.x >= p.x)
            && (v.y <= 0.0 ==> target.y <= p.y) && (v.y >= 0.0 ==> target.y >= p.y)
  {
    AimIsAhead(v, ms);
  }

  lemma NoRoadThere(roads: seq<Road>, target: Vec, p: Vec, i: nat)
    requires !OnSomeRoad(roads, target) && FirstAt(roads, p, -1, i)
    ensures roads[i].Contains(p) && !roads[i].Contains(target)
  {
    assert roads[i] in roads;
  }

  /** A tick brings a dog on a road to p + v * ms / 1000 if some road goes there, and else to the border of the first
      road under it. */
  lemma PositionAfterTick(roads: seq<Road>, d: DogState, ms: nat, i: nat)
    requires DistinctIds(roads) && AxisAligned(d.speed) && FirstAt(roads, d.position, -1, i)
    ensures var p, v, road := d.position, d.speed, roads[i];
            var target := Vec(p.x + v.x * (ms as real) / 1000.0, p.y + v.y * (ms as real) / 1000.0);
            Advanced(roads, d, ms).position ==
            if OnSomeRoad(roads, target) then target
            else if v.x < 0.0 then Vec(Min(road.x0, road.x1) as real - 0.4, p.y)
            else if v.x > 0.0 then Vec(Max(road.x0, road.x1) as real + 0.4, p.y)
            else if v.y < 0.0 then Vec(p.x, Min(road.y0, road.y1) as real - 0.4)
            else Vec(p.x, Max(road.y0, road.y1) as real + 0.4)
  {
    hide Travel, Target, ClampTo, OnSomeRoad, Road.Contains;
    AimIsTarget(d.position, d.speed, ms);
    TargetIsAhead(d.position, d.speed, ms);
    var target := Target(d.position, d.speed, ms);
    FirstIsFound(roads, d.position, i);
    TravelFromRoad(roads, d.position, target, d.speed);
    if !OnSomeRoad(roads, target) {
      NoRoadThere(roads, target, d.position, i);
      StoppedAtBorder(roads[i], d.position, target, d.speed);
    }
  }

  /** Off the roads a dog stands still and has no speed left. */
  lemma StuckOffTheRoads(roads: seq<Road>, d: DogState, ms: nat)
    requires !OnSomeRoad(roads, d.position)
    ensures Advanced(roads, d, ms).position == d.position && Advanced(roads, d, ms).speed == ORIGIN
  {
  }

  lemma AimReached(roads: seq<Road>, d: DogState, ms: nat)
    requires DistinctIds(roads) && AxisAligned(d.speed) && OnSomeRoad(roads, d.position)
    requires OnSomeRoad(roads, Target(d.position, d.speed, ms))
    ensures Advanced(roads, d, ms).position == Target(d.position, d.speed, ms)
  {
    AimIsTarget(d.position, d.speed, ms);
    TravelIsSafe(roads, d.position, Target(d.position, d.speed, ms), d.speed);
    hide Travel, Target;
  }

  lemma AimsAdd(p: Vec, v: Vec, ms1: nat, ms2: nat)
    ensures Target(Target(p, v, ms1), v, ms2) == Target(p, v, ms1 + ms2)
  {
    WaysAdd(v.x, ms1 as real, ms2 as real);
    WaysAdd(v.y, ms1 as real, ms2 as real);
    assert (ms1 + ms2) as real == ms1 as real + ms2 as real;
  }

  lemma WaysAdd(s: real, t1: real, t2: real)
    ensures s * (t1 + t2) == s * t1 + s * t2
  {
  }

  lemma NoSpeedNoWay(p: Vec, ms: nat)
    ensures Target(p, ORIGIN, ms) == p
  {
    NoSpeed(ms as real);
  }

  lemma NoSpeed(t: real)
    ensures 0.0 * t == 0.0
  {
  }

  /** A tick that leaves a dog on a road its speed takes it the whole way. */
  lemma SteadyTick(roads: seq<Road>, d: DogState, ms: nat)
    requires DistinctIds(roads) && AxisAligned(d.speed) && OnSomeRoad(roads, d.position)
    requires Advanced(roads, d, ms).speed == d.speed
    ensures Advanced(roads, d, ms).position == Target(d.position, d.speed, ms)
    ensures OnSomeRoad(roads, Advanced(roads, d, ms).position)
  {
    AimIsTarget(d.position, d.speed, ms);
    NoSpeedNoWay(d.position, ms);
    TravelIsSafe(roads, d.position, Target(d.position, d.speed, ms), d.speed);
    hide Travel, Target;
  }

  /** Two ticks that leave the speed as it is take a dog where one tick of their summed length does. */
  lemma TwoTicksAreOne(roads: seq<Road>, d: DogState, ms1: nat, ms2: nat)
    requires DistinctIds(roads) && AxisAligned(d.speed)
    requires Advanced(roads, d, ms1).speed == d.speed
    requires Advanced(roads, Advanced(roads, d, ms1), ms2).speed == d.speed
    ensures Advanced(roads, d, ms1 + ms2).position == Advanced(roads, Advanced(roads, d, ms1), ms2).position
  {
    var between := Advanced(roads, d, ms1);
    hide Advanced, Target;
    if OnSomeRoad(roads, d.position) {
      SteadyTick(roads, d, ms1);
      SteadyTick(roads, between, ms2);
      AimsAdd(d.position, d.speed, ms1, ms2);
      AimReached(roads, d, ms1 + ms2);
    } else {
      StuckOffTheRoads(roads, d, ms1);
      StuckOffTheRoads(roads, between, ms2);
      StuckOffTheRoads(roads, d, ms1 + ms2);
    }
  }
}
