/** The session object: a map of dog objects, the lost objects and the loot generator, changed in place. */
module GameSessions {
  import opened Wrappers
  import opened Geometry
  import opened RoadMap
  import opened Dogs
  import opened CollisionDetector
  import opened LootGenerators
  import opened SessionModel
  import opened SessionTick

  /** The random numbers behind one new object: a road, a place on it, a type. */
  datatype Roll = Roll(road: nat, fx: real, fy: real, kind: nat)

  /** Where a new dog is put: at a drawn place on a road, or at the origin, road or no road. */
  function SpawnAt(m: GameMap, randomSpawn: bool, place: Roll): Vec
    requires m.roads != []
  {
    if randomSpawn then RandomPosition(m.roads, place.road, place.fx, place.fy) else ORIGIN
  }

  lemma SpawnIsOnRoadOrOrigin(m: GameMap, randomSpawn: bool, place: Roll)
    requires m.roads != [] && 0.0 <= place.fx <= 1.0 && 0.0 <= place.fy <= 1.0
    ensures if randomSpawn then OnSomeRoad(m.roads, SpawnAt(m, randomSpawn, place))
            else SpawnAt(m, randomSpawn, place) == Vec(0.0, 0.0)
  {
    RandomPositionIsOnRoad(m.roads, place.road, place.fx, place.fy);
  }

  function Drawn(m: GameMap, roll: Roll, id: nat): Loot
    requires m.roads != [] && m.lootValues != []
  {
    Loot(id, RandomPosition(m.roads, roll.road, roll.fx, roll.fy), roll.kind % |m.lootValues|)
  }

  /** The objects drawn with consecutive ids. */
  function AllDrawn(m: GameMap, dice: int -> Roll, first: nat, count: nat): seq<Loot>
    requires m.roads != [] && (count > 0 ==> m.lootValues != [])
  {
    seq(count, i requires 0 <= i < count => Drawn(m, dice(i), first + i))
  }

  /** The new objects are drawn with consecutive ids, and there are not more of them than dogs without loot. */
  ghost predicate FairDraw(m: GameMap, s: Session, dice: int -> Roll, first: nat, drawn: seq<Loot>) {
    && m.roads != [] && (drawn != [] ==> m.lootValues != [] && |s.lost| + |drawn| <= |s.dogs|)
    && drawn == AllDrawn(m, dice, first, |drawn|)
  }

  /** How many objects a call of GenerateLoot brings. */
  function Brought(m: GameMap, s: Session, curve: Curve, elapsed: nat, random: real): nat {
    if m.lootValues == [] || |s.lost| >= |s.dogs| then 0 else Appearing(curve, elapsed, |s.lost|, |s.dogs|, random)
  }

  /** So many objects appear after so much time without any: none without types or with as many objects as dogs,
      and else the dogs without loot times the chance, cut to the range from 0 to 1 and rounded. */
  ghost predicate IsBatch(m: GameMap, s: Session, q: real, elapsed: nat, random: real, count: nat) {
    if m.lootValues == [] || |s.lost| >= |s.dogs| then count == 0
    else
      var chance := (1.0 - Pow(q, elapsed)) * random;
      var x := (|s.dogs| - |s.lost|) as real * (if chance < 0.0 then 0.0 else if chance > 1.0 then 1.0 else chance);
      count as real - 0.5 <= x < count as real + 0.5
  }

  lemma BroughtIsBatch(m: GameMap, s: Session, curve: Curve, elapsed: nat, random: real)
    ensures IsBatch(m, s, curve.q, elapsed, random, Brought(m, s, curve, elapsed, random))
  {
    if m.lootValues != [] && |s.lost| < |s.dogs| {
      AppearingIsRounded(curve.q, elapsed, |s.lost|, |s.dogs|, random);
      hide Appearing, Pow;
    }
  }

  method Keys<T>(m: map<nat, T>) returns (ids: seq<nat>)
    ensures Enumerates(ids, m)
  {
    ids := [];
    var todo := m.Keys;
    while todo != {}
      invariant todo <= m.Keys && forall id :: id in ids <==> id in m && id !in todo
      invariant forall i, j :: 0 <= i < j < |ids| ==> ids[i] != ids[j]
      decreases |todo|
    {
      var id :| id in todo;
      assert forall i :: 0 <= i < |ids| ==> ids[i] in ids;
      ids := ids + [id];
      todo := todo - {id};
    }
  }

  class GameSession {
    const m: GameMap
    const generator: LootGenerator
    var dogs: map<nat, Dog>
    var lost: map<nat, Loot>
    ghost var history: History

    constructor (m: GameMap, generator: LootGenerator)
      ensures this.m == m && this.generator == generator
      ensures Valid() && State() == EMPTY_SESSION && dogs == map[]
    {
      this.m, this.generator := m, generator;
      dogs, lost, history := map[], map[], EMPTY_SESSION.history;
    }

    /** Every dog is filed under its own id, so no object is filed twice, and is at home here. */
    ghost predicate Valid()
      reads this`dogs
    {
      forall id :: id in dogs ==> dogs[id].id == id && dogs[id].home == m.id
    }

    ghost function State(): Session
      reads this, dogs.Values
    {
      Session(map id | id in dogs :: dogs[id].State(), lost, history)
    }

    method AddDog(dog: Dog)
      requires Valid() && dog.home == m.id
      modifies this`dogs
      ensures Valid() && dogs == old(dogs)[dog.id := dog]
      ensures State() == AfterAddDog(old(State()), dog.State())
    {
      dogs := dogs[dog.id := dog];
    }

    method AddLoot(loot: Loot)
      requires Valid()
      modifies this`lost, this`history
      ensures Valid() && State() == AfterAddLoot(old(State()), loot)
    {
      lost := lost[loot.id := loot];
      history := history.(generated := history.generated + [loot]);
    }

    method RemoveDog(id: nat)
      requires Valid()
      modifies this`dogs, this`history
      ensures Valid() && dogs == old(dogs) - {id}
      ensures State() == AfterRemoveDog(old(State()), id)
    {
      if id in dogs {
        history := history.(retired := history.retired[id := dogs[id].State()]);
      }
      dogs := dogs - {id};
    }

    /** When only one dog changed, the plain value changed there only. */
    twostate lemma OneDogChanged(id: nat)
      requires old(Valid()) && id in dogs && unchanged(this)
      requires forall j :: j in dogs && j != id ==> unchanged(dogs[j])
      ensures State() == old(State()).(dogs := old(State()).dogs[id := dogs[id].State()])
    {
    }

    // -------------------------------------------------------------------------------------------
    // Moving

    method UpdateDogPosition(dog: Dog, deltaMs: nat)
      modifies dog
      ensures dog.State() == Advanced(m.roads, old(dog.State()), deltaMs)
    {
      hide SqDist, SqLen;
      var speedHere, speedThere := ORIGIN, ORIGIN;
      var here, there := dog.position, dog.position;
      var target := Target(dog.position, dog.speed, deltaMs);

      var current := FindRoadByPosition(m.roads, dog.position, None);
      if current.Some? {
        here, speedHere := ClampTo(current.value, target), SpeedOn(current.value, target, dog.speed);
        var other := FindRoadByPosition(m.roads, target, Some(current.value.id));
        if other.Some? {
          there, speedThere := ClampTo(other.value, target), SpeedOn(other.value, target, dog.speed);
        }
      }

      if SqDist(here, dog.position) > SqDist(there, dog.position) || SqLen(speedHere) > SqLen(speedThere) {
        dog.SetPosition(here);
        dog.SetSpeedForTick(speedHere, deltaMs);
      } else {
        dog.SetPosition(there);
        dog.SetSpeedForTick(speedThere, deltaMs);
      }
    }

    method MoveDogs(deltaMs: nat)
      requires Valid()
      modifies dogs.Values
      ensures State() == Moved(m, old(State()), deltaMs)
    {
      hide Travel, Target;
      var todo := dogs.Keys;
      while todo != {}
        invariant todo <= dogs.Keys
        invariant forall id :: id in dogs ==>
          dogs[id].State() ==
          if id in todo then old(dogs[id].State()) else Advanced(m.roads, old(dogs[id].State()), deltaMs)
        decreases |todo|
      {
        var id :| id in todo;
        UpdateDogPosition(dogs[id], deltaMs);
        todo := todo - {id};
      }
    }

    /** Everybody moves, then the gather events are handled.  False is the fault of an empty bag slot. */
    method UpdateTime(deltaMs: nat) returns (ok: bool, ghost hits: seq<Hit>)
      requires Valid()
      modifies this`lost, this`history, dogs.Values
      ensures Valid() && AreHits(m, Moved(m, old(State()), deltaMs), hits)
      ensures DogsPresent(Moved(m, old(State()), deltaMs), hits)
      ensures ok == AfterTick(m, old(State()), deltaMs, hits).Fine?
      ensures ok ==> State() == AfterTick(m, old(State()), deltaMs, hits).s
    {
      MoveDogs(deltaMs);
      ok, hits := HandleLoot();
    }

    // -------------------------------------------------------------------------------------------
    // Gathering

    method CollectLoot(lootIds: seq<nat>, itemId: nat, dogId: nat)
      requires Valid() && dogId in dogs
      modifies this`lost, dogs[dogId]
      ensures Valid()
      ensures State() == if itemId < |lootIds| then AfterCollect(old(State()), dogId, lootIds[itemId]) else old(State())
    {
      var dog := dogs[dogId];
      if itemId >= |lootIds| || |dog.bag| >= dog.bagCapacity {
        return;
      }
      var id := lootIds[itemId];
      dog.CollectLostObject(Lookup(lost, id));
      lost := lost - {id};
    }

    method DropLoot(lootIds: seq<nat>, itemId: nat, dogId: nat) returns (ok: bool)
      requires Valid() && dogId in dogs
      modifies this`history, dogs[dogId]
      ensures Valid()
      ensures ok == (itemId < |lootIds| || AfterDrop(m.lootValues, old(State()), dogId).Fine?)
      ensures ok ==>
          State() == if itemId < |lootIds| then old(State()) else AfterDrop(m.lootValues, old(State()), dogId).s
    {
      var dog := dogs[dogId];
      if itemId < |lootIds| || dog.bag == [] {
        return true;
      }
      ghost var bag := dog.bag;
      ok := dog.DropLostObjects(m.lootValues);
      history := history.(cashed := history.cashed + Objects(bag));
    }

    method HandleEvent(lootIds: seq<nat>, itemId: nat, dogId: nat) returns (ok: bool)
      requires Valid() && dogId in dogs
      modifies this`lost, this`history, dogs[dogId]
      ensures Valid()
      ensures var o := AfterHit(m.lootValues, old(State()),
                                if itemId < |lootIds| then LootHit(dogId, lootIds[itemId]) else OfficeHit(dogId));
              ok == o.Fine? && (ok ==> State() == o.s)
    {
      CollectLoot(lootIds, itemId, dogId);
      ok := DropLoot(lootIds, itemId, dogId);
    }

    method GathererList(ids: seq<nat>) returns (gatherers: seq<Gatherer>)
      requires forall id :: id in ids ==> id in dogs
      ensures gatherers == Gatherers(State().dogs, ids)
    {
      gatherers := [];
      var i := 0;
      while i < |ids|
        invariant 0 <= i == |gatherers| <= |ids|
        invariant forall j :: 0 <= j < i ==> gatherers[j] == dogs[ids[j]].gatherer
      {
        gatherers := gatherers + [dogs[ids[i]].gatherer];
        i := i + 1;
      }
    }

    method ItemList(ids: seq<nat>) returns (items: seq<Item>)
      requires forall id :: id in ids ==> id in lost
      ensures items == Items(lost, ids, m.offices)
    {
      items := [];
      var i := 0;
      while i < |ids|
        invariant 0 <= i == |items| <= |ids|
        invariant forall j :: 0 <= j < i ==> items[j] == LootItem(lost[ids[j]])
      {
        items := items + [LootItem(lost[ids[i]])];
        i := i + 1;
      }
      ghost var loot := items;
      i := 0;
      while i < |m.offices|
        invariant 0 <= i <= |m.offices| && |items| == |loot| + i && items[..|loot|] == loot
        invariant forall j :: 0 <= j < i ==> items[|loot| + j] == OfficeItem(m.offices[j])
      {
        items := items + [OfficeItem(m.offices[i])];
        i := i + 1;
      }
      assert items == Items(lost, ids, m.offices);
    }

    method HandleLoot() returns (ok: bool, ghost hits: seq<Hit>)
      requires Valid()
      modifies this`lost, this`history, dogs.Values
      ensures Valid() && AreHits(m, old(State()), hits) && DogsPresent(old(State()), hits)
      ensures ok == Replay(m.lootValues, old(State()), hits).Fine?
      ensures ok ==> State() == Replay(m.lootValues, old(State()), hits).s
    {
      hide IsTimeline, Replay;
      var dogIds, lootIds, events, h := GatherEvents();
      hits := h;
      HitsArePresent(m, State(), hits);
      ok := ReplayEvents(dogIds, lootIds, events, hits);
    }

    method GatherEvents()
      returns (dogIds: seq<nat>, lootIds: seq<nat>, events: seq<GatheringEvent>, ghost hits: seq<Hit>)
      ensures HitsFrom(m, State(), hits, dogIds, lootIds, events) && AreHits(m, State(), hits)
    {
      dogIds := Keys(dogs);
      lootIds := Keys(lost);
      var gatherers := GathererList(dogIds);
      var items := ItemList(lootIds);
      events := FindGatherEvents(items, gatherers);
      hits := HitList(m, State(), dogIds, lootIds, events);
    }

    lemma DogsOfState()
      ensures State().dogs.Keys == dogs.Keys
    {
    }

    method ReplayEvents(dogIds: seq<nat>, lootIds: seq<nat>, events: seq<GatheringEvent>, ghost hits: seq<Hit>)
      returns (ok: bool)
      requires Valid() && HitsFrom(m, State(), hits, dogIds, lootIds, events) && DogsPresent(State(), hits)
      modifies this`lost, this`history, dogs.Values
      ensures Valid()
      ensures ok == Replay(m.lootValues, old(State()), hits).Fine?
      ensures ok ==> State() == Replay(m.lootValues, old(State()), hits).s
    {
      hide AfterHit, IsTimeline, Items, Gatherers, Replay, State;
      ghost var s := State();
      NothingReplayed(m.lootValues, s);
      var k := 0;
      while k < |events|
        invariant 0 <= k <= |events| && Valid()
        invariant Replay(m.lootValues, s, hits[..k]) == Fine(State())
      {
        ReplayNext(m.lootValues, s, hits, k, State());
        DogsOfState();
        assert hits[k] == HitOf(dogIds, lootIds, events[k]);
        ok := HandleEvent(lootIds, events[k].itemId, dogIds[events[k].gathererId]);
        if !ok {
          FaultStays(m.lootValues, s, hits, k + 1);
          return;
        }
        k := k + 1;
      }
      assert hits[..k] == hits;
      ok := true;
    }

    // -------------------------------------------------------------------------------------------
    // New loot

    /** A new dog at `spawn`, followed by the loot of one period. */
    method AddNewDog(id: nat, name: string, spawn: Vec, random: real, dice: int -> Roll, first: nat)
      returns (dog: Dog, next: nat, ghost drawn: seq<Loot>)
      requires Valid() && m.roads != []
      modifies this, generator
      ensures Valid() && fresh(dog) && dog.id == id && dogs == old(dogs)[id := dog]
      ensures next == first + |drawn|
      ensures FairDraw(m, AfterAddDog(old(State()), NewDog(id, name, spawn, m.bagCapacity)), dice, first, drawn)
      ensures IsBatch(m, AfterAddDog(old(State()), NewDog(id, name, spawn, m.bagCapacity)), generator.curve.q,
          old(generator.timeWithoutLoot) + generator.baseIntervalMs, random, |drawn|)
      ensures generator.timeWithoutLoot ==
              if m.lootValues == [] || old(|lost|) >= |dogs| then old(generator.timeWithoutLoot)
              else if drawn == [] then old(generator.timeWithoutLoot) + generator.baseIntervalMs else 0
      ensures State() == AfterAddLoots(AfterAddDog(old(State()), NewDog(id, name, spawn, m.bagCapacity)), drawn)
    {
      hide Appearing, AfterAddLoots, RandomPosition, Brought, FairDraw, IsBatch;
      dog := new Dog(id, name, spawn, m.bagCapacity, m.id);
      AddDog(dog);
      next, drawn := GenerateLoot(generator.baseIntervalMs, random, dice, first);
    }

    /** `dice` are the random draws, `first` and `next` the loot id counter before and after. */
    method GenerateLoot(deltaMs: nat, random: real, dice: int -> Roll, first: nat)
      returns (next: nat, ghost drawn: seq<Loot>)
      requires Valid() && m.roads != []
      modifies this`lost, this`history, generator
      ensures Valid()
      ensures IsBatch(m, old(State()), generator.curve.q, old(generator.timeWithoutLoot) + deltaMs, random, |drawn|)
      ensures FairDraw(m, old(State()), dice, first, drawn) && next == first + |drawn|
      ensures m.lootValues == [] || old(|lost| >= |dogs|) ==>
                drawn == [] && generator.timeWithoutLoot == old(generator.timeWithoutLoot)
      ensures m.lootValues != [] && old(|lost| < |dogs|) ==>
                generator.timeWithoutLoot == if drawn == [] then old(generator.timeWithoutLoot) + deltaMs else 0
      ensures State() == AfterAddLoots(old(State()), drawn)
    {
      hide Appearing, AfterAddLoots, AllDrawn, FairDraw, State, IsBatch, Pow;
      DogCount();
      BroughtIsBatch(m, State(), generator.curve, generator.timeWithoutLoot + deltaMs, random);
      NothingAdded(State());
      DrawIsFair(m, State(), generator.curve, generator.timeWithoutLoot + deltaMs, random, dice, first);
      if m.lootValues == [] || |lost| >= |dogs| {
        return first, [];
      }
      var count := generator.Generate(deltaMs, |lost|, |dogs|, random);
      drawn := AddDrawn(count, dice, first);
      next := first + count;
    }

    lemma DogCount()
      ensures |State().dogs| == |dogs| && |State().lost| == |lost|
    {
      assert State().dogs.Keys == dogs.Keys;
      assert |State().dogs| == |State().dogs.Keys| && |dogs| == |dogs.Keys|;
    }

    method AddDrawn(count: nat, dice: int -> Roll, first: nat) returns (ghost drawn: seq<Loot>)
      requires Valid() && m.roads != [] && m.lootValues != []
      modifies this`lost, this`history
      ensures Valid() && drawn == AllDrawn(m, dice, first, count)
      ensures State() == AfterAddLoots(old(State()), drawn)
    {
      drawn := [];
      var i := 0;
      while i < count
        invariant 0 <= i <= count && Valid()
        invariant drawn == AllDrawn(m, dice, first, i)
        invariant State() == AfterAddLoots(old(State()), drawn)
      {
        var loot := Drawn(m, dice(i), first + i);
        AddLoot(loot);
        assert (drawn + [loot])[..|drawn|] == drawn;
        drawn := drawn + [loot];
        i := i + 1;
      }
    }
  }

  lemma NothingAdded(s: Session)
    ensures AfterAddLoots(s, []) == s
  {
  }

  /** The hits that the events stand for. */
  ghost function HitList(m: GameMap, s: Session, dogIds: seq<nat>, lootIds: seq<nat>,
      events: seq<GatheringEvent>): (hits: seq<Hit>)
    requires Enumerates(dogIds, s.dogs) && Enumerates(lootIds, s.lost)
    requires IsTimeline(Items(s.lost, lootIds, m.offices), Gatherers(s.dogs, dogIds), events)
    ensures HitsFrom(m, s, hits, dogIds, lootIds, events) && AreHits(m, s, hits)
  {
    assert forall k :: 0 <= k < |events| ==> events[k] in events;
    seq(|events|, k requires 0 <= k < |events| => HitOf(dogIds, lootIds, events[k]))
  }

  lemma {:induction false} FaultStays(values: seq<nat>, s: Session, hits: seq<Hit>, k: nat)
    requires DogsPresent(s, hits) && k <= |hits| && Replay(values, s, hits[..k]).Fault?
    ensures Replay(values, s, hits).Fault?
    decreases |hits|
  {
    if k < |hits| {
      assert hits[..|hits| - 1][..k] == hits[..k];
      FaultStays(values, s, hits[..|hits| - 1], k);
    } else {
      assert hits[..k] == hits;
    }
  }

  /** New loot never lifts the number of lost objects above that of the dogs. */
  lemma LootNeverExceedsDogs(m: GameMap, s: Session, curve: Curve, elapsed: nat, random: real)
    ensures var count := Brought(m, s, curve, elapsed, random);
            count == 0 || |s.lost| + count <= |s.dogs|
  {
  }

  lemma DrawIsFair(m: GameMap, s: Session, curve: Curve, elapsed: nat, random: real, dice: int -> Roll, first: nat)
    requires m.roads != []
    ensures var count := Brought(m, s, curve, elapsed, random);
            && (count > 0 ==> m.lootValues != [])
            && FairDraw(m, s, dice, first, AllDrawn(m, dice, first, count))
            && |AllDrawn(m, dice, first, count)| == count
            && AllDrawn(m, dice, first, 0) == []
  {
  }

  /** New loot lies on a road, at the drawn fractions of its sides, and has the drawn type, a known one. */
  lemma DrawnLootIsPlaced(m: GameMap, roll: Roll, id: nat)
    requires m.roads != [] && m.lootValues != [] && 0.0 <= roll.fx <= 1.0 && 0.0 <= roll.fy <= 1.0
    ensures OnSomeRoad(m.roads, Drawn(m, roll, id).position) && LootKnown(Drawn(m, roll, id), m.lootValues)
    ensures Drawn(m, roll, id).id == id && Drawn(m, roll, id).lootType == roll.kind % |m.lootValues|
    ensures var road, p := m.roads[roll.road % |m.roads|], Drawn(m, roll, id).position;
            var left, top := Min(road.x0, road.x1) as real - 0.4, Min(road.y0, road.y1) as real - 0.4;
            && p.x - left == Times(roll.fx, Max(road.x0, road.x1) as real + 0.4 - left)
            && p.y - top == Times(roll.fy, Max(road.y0, road.y1) as real + 0.4 - top)
  {
    RandomPositionIsOnRoad(m.roads, roll.road, roll.fx, roll.fy);
  }
}
