/** Dogs: position, speed and direction, the bag of collected loot, the score and the two clocks. */
module Dogs {
  import opened Wrappers
  import opened Geometry
  import opened RoadMap
  import CollisionDetector

  const DOG_WIDTH := 0.3
  const LOOT_WIDTH := 0.0

  datatype Loot = Loot(id: nat, position: Vec, lootType: nat)

  /** A bag slot is empty when the object had already been taken at the moment it was put in. */
  type Bag = seq<Option<Loot>>

  datatype DogState = DogState(
    id: nat,
    name: string,
    position: Vec,
    speed: Vec,
    direction: string,
    bag: Bag,
    score: nat,
    bagCapacity: nat,
    afkTime: nat,
    liveTime: nat,
    gatherer: CollisionDetector.Gatherer)

  function NewDog(id: nat, name: string, position: Vec, bagCapacity: nat): DogState {
    DogState(id, name, position, ORIGIN, "U", [], 0, bagCapacity, 0, 0,
             CollisionDetector.Gatherer(ORIGIN, ORIGIN, DOG_WIDTH))
  }

  // ---------------------------------------------------------------------------------------------
  // What each operation does to a dog

  /** A direction is empty or one of the four letters. */
  predicate ValidDirection(direction: string) {
    |direction| <= 1 && forall c :: c in direction ==> c in "LRUD"
  }

  lemma KnownDirections(direction: string)
    ensures ValidDirection(direction) <==> direction in ["", "L", "R", "U", "D"]
  {
    if |direction| == 1 {
      assert direction == [direction[0]];
      assert ValidDirection(direction) ==> direction[0] in "LRUD";
    }
  }

  function Placed(d: DogState, p: Vec): DogState {
    d.(position := p, gatherer := CollisionDetector.Gatherer(d.gatherer.endPos, p, d.gatherer.width))
  }

  /** The clocks run with the tick; standing still adds to the idle time, moving clears it. */
  function Paced(d: DogState, speed: Vec, deltaMs: nat): DogState {
    d.(speed := speed, liveTime := d.liveTime + deltaMs, afkTime := if speed == ORIGIN then d.afkTime + deltaMs else 0)
  }

  function SpeedTowards(direction: string, dogSpeed: real): Vec {
    if direction == "L" then Vec(-dogSpeed, 0.0)
    else if direction == "R" then Vec(dogSpeed, 0.0)
    else if direction == "U" then Vec(0.0, -dogSpeed)
    else if direction == "D" then Vec(0.0, dogSpeed)
    else ORIGIN
  }

  function Steered(d: DogState, direction: string, dogSpeed: real): DogState {
    d.(direction := direction, afkTime := 0, speed := SpeedTowards(direction, dogSpeed))
  }

  predicate IsFullBag(d: DogState) { |d.bag| >= d.bagCapacity }

  function Collected(d: DogState, loot: Option<Loot>): DogState {
    if IsFullBag(d) then d else d.(bag := d.bag + [loot])
  }

  /** Every slot holds an object of a known type, so that its value can be looked up. */
  predicate Sound(bag: Bag, values: seq<nat>) {
    forall i :: 0 <= i < |bag| ==> bag[i].Some? && bag[i].value.lootType < |values|
  }

  function ValueOf(loot: Option<Loot>, values: seq<nat>): nat {
    match loot
    case Some(l) => if l.lootType < |values| then values[l.lootType] else 0
    case None => 0
  }

  function BagValue(bag: Bag, values: seq<nat>): nat {
    if bag == [] then 0 else BagValue(bag[..|bag| - 1], values) + ValueOf(bag[|bag| - 1], values)
  }

  function Dropped(d: DogState, values: seq<nat>): DogState {
    d.(score := d.score + BagValue(d.bag, values), bag := [])
  }

  /** An empty bag is worth nothing. */
  lemma NothingToCash(d: DogState, values: seq<nat>)
    requires d.bag == []
    ensures Dropped(d, values) == d
  {
  }

  /** One more object of a known type in the bag scores its value more, and nothing else changes. */
  lemma OneMoreToCash(d: DogState, l: Loot, values: seq<nat>)
    requires l.lootType < |values|
    ensures var less := Dropped(d, values);
            Dropped(d.(bag := d.bag + [Some(l)]), values) == less.(score := less.score + values[l.lootType])
    ensures Dropped(d, values).bag == []
    ensures Sound(d.bag + [Some(l)], values) <==> Sound(d.bag, values)
  {
    var bag := d.bag + [Some(l)];
    assert bag[..|bag| - 1] == d.bag;
    assert forall i :: 0 <= i < |d.bag| ==> bag[i] == d.bag[i];
  }

  predicate IsAfk(d: DogState, maxInactiveMs: nat) { d.afkTime >= maxInactiveMs }

  /** One tick of movement over the roads. */
  function Advanced(roads: seq<Road>, d: DogState, deltaMs: nat): DogState {
    var (p, v) := Travel(roads, d.position, Target(d.position, d.speed, deltaMs), d.speed);
    Paced(Placed(d, p), v, deltaMs)
  }

  // ---------------------------------------------------------------------------------------------
  // The object

  class Dog {
    /** The map whose session the dog is in, for its whole life. */
    ghost const home: string
    const id: nat
    const name: string
    const bagCapacity: nat
    var position: Vec
    var speed: Vec
    var direction: string
    var bag: Bag
    var score: nat
    var afkTime: nat
    var liveTime: nat
    var gatherer: CollisionDetector.Gatherer

    function State(): DogState
      reads this
    {
      DogState(id, name, position, speed, direction, bag, score, bagCapacity, afkTime, liveTime, gatherer)
    }

    constructor (id: nat, name: string, position: Vec, bagCapacity: nat, ghost home: string)
      ensures State() == NewDog(id, name, position, bagCapacity) && this.home == home
    {
      this.home := home;
      this.id, this.name, this.position, this.bagCapacity := id, name, position, bagCapacity;
      speed, direction, bag, score := ORIGIN, "U", [], 0;
      afkTime, liveTime := 0, 0;
      gatherer := CollisionDetector.Gatherer(ORIGIN, ORIGIN, DOG_WIDTH);
    }

    method SetPosition(p: Vec)
      modifies this
      ensures State() == Placed(old(State()), p)
    {
      position := p;
      gatherer := gatherer.(startPos := gatherer.endPos);
      gatherer := gatherer.(endPos := position);
    }

    method SetSpeed(v: Vec)
      modifies this
      ensures State() == old(State()).(speed := v)
    {
      speed := v;
    }

    method SetSpeedForTick(v: Vec, deltaMs: nat)
      modifies this
      ensures State() == Paced(old(State()), v, deltaMs)
    {
      speed := v;
      liveTime := liveTime + deltaMs;
      if v == ORIGIN {
        afkTime := afkTime + deltaMs;
      } else {
        afkTime := 0;
      }
    }

    /** The direction of a restored dog; false stands for the exception. */
    method SetDirection(d: string) returns (ok: bool)
      modifies this
      ensures ok == ValidDirection(d)
      ensures State() == if ok then old(State()).(direction := d) else old(State())
    {
      ok := ValidDirection(d);
      if ok {
        direction := d;
      }
    }

    /** A player's order; false stands for the exception. */
    method Steer(d: string, dogSpeed: real) returns (ok: bool)
      modifies this
      ensures ok == ValidDirection(d)
      ensures State() == if ok then Steered(old(State()), d, dogSpeed) else old(State())
    {
      ok := ValidDirection(d);
      if !ok {
        return;
      }
      direction := d;
      afkTime := 0;
      if d == "" {
        speed := ORIGIN;
        return;
      }
      assert d == [d[0]] && d[0] in "LRUD";
      assert d == "L" || d == "R" || d == "U" || d == "D";
      if d[0] == 'L' {
        speed := Vec(-dogSpeed, 0.0);
      } else if d[0] == 'R' {
        speed := Vec(dogSpeed, 0.0);
      } else if d[0] == 'U' {
        speed := Vec(0.0, -dogSpeed);
      } else if d[0] == 'D' {
        speed := Vec(0.0, dogSpeed);
      }
    }

    method CollectLostObject(loot: Option<Loot>)
      modifies this
      ensures State() == Collected(old(State()), loot)
    {
      if |bag| < bagCapacity {
        bag := bag + [loot];
      }
    }

    method AddScore(value: nat)
      modifies this
      ensures State() == old(State()).(score := old(score) + value)
    {
      score := score + value;
    }

    /** Cashes the bag in.  False stands for the access through an empty slot (or past the table of types),
        after which nothing is promised. */
    method DropLostObjects(values: seq<nat>) returns (ok: bool)
      modifies this
      ensures ok == Sound(old(bag), values)
      ensures ok ==> State() == Dropped(old(State()), values)
    {
      var i := 0;
      while i < |bag|
        invariant 0 <= i <= |bag|
        invariant Sound(bag[..i], values)
        invariant State() == old(State()).(score := old(score) + BagValue(bag[..i], values))
      {
        if bag[i].None? || bag[i].value.lootType >= |values| {
          return false;
        }
        assert bag[..i + 1][..i] == bag[..i];
        AddScore(values[bag[i].value.lootType]);
        i := i + 1;
      }
      assert bag[..i] == bag;
      bag := [];
      return true;
    }
  }

  // ---------------------------------------------------------------------------------------------
  // The life of one dog

  /** What happens to a dog outside loot handling. */
  datatype Deed = Order(direction: string) | Tick(deltaMs: nat)

  function AfterDeed(m: GameMap, d: DogState, deed: Deed): DogState {
    match deed
    case Order(direction) => if ValidDirection(direction) then Steered(d, direction, m.dogSpeed) else d
    case Tick(deltaMs) => Advanced(m.roads, d, deltaMs)
  }

  function AfterDeeds(m: GameMap, d: DogState, deeds: seq<Deed>): DogState {
    if deeds == [] then d else AfterDeed(m, AfterDeeds(m, d, deeds[..|deeds| - 1]), deeds[|deeds| - 1])
  }

  function ElapsedMs(deeds: seq<Deed>): nat {
    if deeds == [] then 0
    else ElapsedMs(deeds[..|deeds| - 1]) + (match deeds[|deeds| - 1] case Order(_) => 0 case Tick(delta) => delta)
  }

  /** The last deed restarts the idle clock: an accepted order, or a tick that ends in motion. */
  predicate Restarts(m: GameMap, d: DogState, deeds: seq<Deed>)
    requires deeds != []
  {
    match deeds[|deeds| - 1]
    case Order(direction) => ValidDirection(direction)
    case Tick(_) => AfterDeeds(m, d, deeds).speed != ORIGIN
  }

  /** The deeds from j on never restart the idle clock, and the one before them, if any, does. */
  ghost predicate IdleSince(m: GameMap, d: DogState, deeds: seq<Deed>, j: nat) {
    && j <= |deeds|
    && (j > 0 ==> Restarts(m, d, deeds[..j]))
    && (forall k: nat :: j < k <= |deeds| ==> !Restarts(m, d, deeds[..k]))
  }

  /** One more deed that does not restart the idle clock. */
  lemma StillIdle(m: GameMap, d: DogState, deeds: seq<Deed>, j: nat)
    requires deeds != [] && !Restarts(m, d, deeds) && IdleSince(m, d, deeds[..|deeds| - 1], j)
    ensures IdleSince(m, d, deeds, j)
  {
    var before := deeds[..|deeds| - 1];
    forall k: nat | k <= |before| ensures deeds[..k] == before[..k] {}
    forall k: nat | j < k <= |deeds| ensures !Restarts(m, d, deeds[..k]) {
      assert k == |deeds| ==> deeds[..k] == deeds;
      assert k < |deeds| ==> deeds[..k] == before[..k];
    }
    assert deeds[..j] == before[..j];
  }

  /** The moment of the last restart. */
  function IdleStart(m: GameMap, d: DogState, deeds: seq<Deed>): nat {
    if deeds == [] then 0
    else if Restarts(m, d, deeds) then |deeds|
    else IdleStart(m, d, deeds[..|deeds| - 1])
  }

  lemma {:induction false} IdleStartIsLastRestart(m: GameMap, d: DogState, deeds: seq<Deed>)
    ensures IdleSince(m, d, deeds, IdleStart(m, d, deeds))
  {
    if deeds != [] {
      assert deeds[..|deeds|] == deeds;
      if !Restarts(m, d, deeds) {
        IdleStartIsLastRestart(m, d, deeds[..|deeds| - 1]);
        StillIdle(m, d, deeds, IdleStart(m, d, deeds));
      }
    }
  }

  lemma {:induction false} IdleClock(m: GameMap, d: DogState, deeds: seq<Deed>)
    requires d.afkTime == 0 && d.liveTime == 0
    ensures AfterDeeds(m, d, deeds).liveTime == ElapsedMs(deeds)
    ensures IdleStart(m, d, deeds) <= |deeds|
    ensures AfterDeeds(m, d, deeds).afkTime == ElapsedMs(deeds[IdleStart(m, d, deeds)..])
  {
    hide Travel, Target;
    if deeds != [] {
      var n := |deeds| - 1;
      IdleClock(m, d, deeds[..n]);
      if !Restarts(m, d, deeds) {
        var j := IdleStart(m, d, deeds);
        assert deeds[j..][..n - j] == deeds[..n][j..];
      }
    }
  }

  /** The idle clock is the time since the last restart, and the life clock is all the time. */
  lemma ClocksMeasureTime(m: GameMap, d: DogState, deeds: seq<Deed>)
    requires d.afkTime == 0 && d.liveTime == 0
    ensures AfterDeeds(m, d, deeds).liveTime == ElapsedMs(deeds)
    ensures exists j: nat :: IdleSince(m, d, deeds, j) && AfterDeeds(m, d, deeds).afkTime == ElapsedMs(deeds[j..])
  {
    IdleClock(m, d, deeds);
    IdleStartIsLastRestart(m, d, deeds);
  }

  /** An idle dog has not been idle longer than it has lived. */
  predicate ClocksOrdered(d: DogState) { d.afkTime <= d.liveTime }

  /** On a road for its whole life if it starts on one, and rooted to the spot if it does not; its speed
      always points along an axis. */
  lemma {:induction false} LifeOnTheRoad(m: GameMap, d: DogState, deeds: seq<Deed>)
    requires DistinctIds(m.roads) && AxisAligned(d.speed)
    ensures AxisAligned(AfterDeeds(m, d, deeds).speed)
    ensures if OnSomeRoad(m.roads, d.position) then OnSomeRoad(m.roads, AfterDeeds(m, d, deeds).position)
            else AfterDeeds(m, d, deeds).position == d.position
  {
    if deeds != [] {
      LifeOnTheRoad(m, d, deeds[..|deeds| - 1]);
      DeedOnTheRoad(m, AfterDeeds(m, d, deeds[..|deeds| - 1]), deeds[|deeds| - 1]);
    }
  }

  lemma DeedOnTheRoad(m: GameMap, d: DogState, deed: Deed)
    requires DistinctIds(m.roads) && AxisAligned(d.speed)
    ensures AxisAligned(AfterDeed(m, d, deed).speed)
    ensures if OnSomeRoad(m.roads, d.position) then OnSomeRoad(m.roads, AfterDeed(m, d, deed).position)
            else AfterDeed(m, d, deed).position == d.position
  {
    hide Travel, Target;
    match deed {
      case Order(_) =>
      case Tick(delta) =>
        TargetAlongAxis(d.position, d.speed, delta);
        TravelIsSafe(m.roads, d.position, Target(d.position, d.speed, delta), d.speed);
    }
  }

  /** From the second tick on the gathering segment is the way of the tick; on the first it starts at the origin. */
  lemma GathererFollowsTheDog(roads: seq<Road>, d: DogState, delta1: nat, delta2: nat)
    ensures var first := Advanced(roads, d, delta1);
            var second := Advanced(roads, first, delta2);
            && first.gatherer.startPos == d.gatherer.endPos
            && second.gatherer.startPos == first.position
            && second.gatherer.endPos == second.position
  {
  }
}
