/** The tick of a session: everybody moves, then the gather events are replayed in time order. */
module SessionTick {
  import opened Wrappers
  import opened Geometry
  import opened RoadMap
  import opened Dogs
  import opened CollisionDetector
  import opened SessionModel
  import opened SessionContest

  function AfterTick(m: GameMap, s: Session, deltaMs: nat, hits: seq<Hit>): Outcome
    requires DogsPresent(Moved(m, s, deltaMs), hits)
  {
    Replay(m.lootValues, Moved(m, s, deltaMs), hits)
  }

  // ---------------------------------------------------------------------------------------------
  // The hits are real encounters

  lemma HitsArePresent(m: GameMap, s: Session, hits: seq<Hit>)
    requires AreHits(m, s, hits)
    ensures DogsPresent(s, hits) && LootPresent(s, hits)
  {
  }

  lemma HitOfLoot(m: GameMap, s: Session, hits: seq<Hit>, dog: nat, loot: nat)
    requires AreHits(m, s, hits) && dog in s.dogs && loot in s.lost
    ensures LootHit(dog, loot) in hits <==> Collects(s.dogs[dog].gatherer, LootItem(s.lost[loot]))
  {
    var dogIds: seq<nat>, lootIds: seq<nat>,
        events: seq<GatheringEvent> :| HitsFrom(m, s, hits, dogIds, lootIds, events);
    var items, gatherers := Items(s.lost, lootIds, m.offices), Gatherers(s.dogs, dogIds);
    var g :| 0 <= g < |dogIds| && dogIds[g] == dog;
    var i :| 0 <= i < |lootIds| && lootIds[i] == loot;
    assert gatherers[g] == s.dogs[dog].gatherer && items[i] == LootItem(s.lost[loot]);
    if LootHit(dog, loot) in hits {
      var k :| 0 <= k < |hits| && hits[k] == LootHit(dog, loot);
      var e := events[k];
      assert e in events;
      assert dogIds[e.gathererId] == dogIds[g] && lootIds[e.itemId] == lootIds[i];
    }
    if Collects(gatherers[g], items[i]) {
      var e := EventOf(items, gatherers, g, i);
      assert IsEvent(items, gatherers, e);
      var k :| 0 <= k < |events| && events[k] == e;
      assert hits[k] == LootHit(dog, loot);
    }
  }

  /** A dog hits an object of its session exactly when its way of the tick passes it within the dog's width, with the
      foot of the perpendicular on the way. */
  lemma LootHitIff(m: GameMap, s: Session, hits: seq<Hit>, dog: nat, loot: nat)
    requires AreHits(m, s, hits) && dog in s.dogs && loot in s.lost
    ensures var g, p := s.dogs[dog].gatherer, s.lost[loot].position;
            LootHit(dog, loot) in hits <==>
            && g.startPos != g.endPos
            && FootOnWay(g.startPos, g.endPos, p) && PassesWithin(g.startPos, g.endPos, p, g.width)
  {
    hide AreHits, Collects, FootOnWay, PassesWithin;
    HitOfLoot(m, s, hits, dog, loot);
    CollectsIff(s.dogs[dog].gatherer, LootItem(s.lost[loot]));
  }

  lemma OfficeHitHasOffice(m: GameMap, s: Session, hits: seq<Hit>, dog: nat) returns (n: nat)
    requires AreHits(m, s, hits) && dog in s.dogs && OfficeHit(dog) in hits
    ensures n < |m.offices| && Collects(s.dogs[dog].gatherer, OfficeItem(m.offices[n]))
  {
    var dogIds: seq<nat>, lootIds: seq<nat>,
        events: seq<GatheringEvent> :| HitsFrom(m, s, hits, dogIds, lootIds, events);
    var k :| 0 <= k < |hits| && hits[k] == OfficeHit(dog);
    var e := events[k];
    assert e in events;
    n := e.itemId - |lootIds|;
    assert Items(s.lost, lootIds, m.offices)[e.itemId] == OfficeItem(m.offices[n]);
  }

  lemma OfficeGivesHit(m: GameMap, s: Session, hits: seq<Hit>, dog: nat, n: nat)
    requires AreHits(m, s, hits) && dog in s.dogs
    requires n < |m.offices| && Collects(s.dogs[dog].gatherer, OfficeItem(m.offices[n]))
    ensures OfficeHit(dog) in hits
  {
    var dogIds: seq<nat>, lootIds: seq<nat>,
        events: seq<GatheringEvent> :| HitsFrom(m, s, hits, dogIds, lootIds, events);
    var items, gatherers := Items(s.lost, lootIds, m.offices), Gatherers(s.dogs, dogIds);
    var g :| 0 <= g < |dogIds| && dogIds[g] == dog;
    var i := |lootIds| + n;
    assert gatherers[g] == s.dogs[dog].gatherer && items[i] == OfficeItem(m.offices[n]);
    var e := EventOf(items, gatherers, g, i);
    assert IsEvent(items, gatherers, e);
    var k :| 0 <= k < |events| && events[k] == e;
    assert hits[k] == OfficeHit(dog);
  }

  /** A dog comes to an office exactly when its way of the tick passes the place of some office within 0.5 and the
      dog's width, with the foot of the perpendicular on the way. */
  lemma OfficeHitIff(m: GameMap, s: Session, hits: seq<Hit>, dog: nat)
    requires AreHits(m, s, hits) && dog in s.dogs
    ensures var g := s.dogs[dog].gatherer;
            OfficeHit(dog) in hits <==>
            exists n :: 0 <= n < |m.offices|
              && g.startPos != g.endPos
              && FootOnWay(g.startPos, g.endPos, m.offices[n].position)
              && PassesWithin(g.startPos, g.endPos, m.offices[n].position, 0.5 + g.width)
  {
    hide AreHits, Collects, FootOnWay, PassesWithin;
    var g := s.dogs[dog].gatherer;
    forall n: nat | n < |m.offices|
      ensures Collects(g, OfficeItem(m.offices[n])) <==>
              g.startPos != g.endPos && FootOnWay(g.startPos, g.endPos, m.offices[n].position)
              && PassesWithin(g.startPos, g.endPos, m.offices[n].position, 0.5 + g.width)
    {
      CollectsIff(g, OfficeItem(m.offices[n]));
    }
    if OfficeHit(dog) in hits {
      var n := OfficeHitHasOffice(m, s, hits, dog);
    }
    if n :| 0 <= n < |m.offices| && Collects(g, OfficeItem(m.offices[n])) {
      OfficeGivesHit(m, s, hits, dog, n);
    }
  }

  /** Each dog passes each object at most once in a tick. */
  lemma PairsHitOnce(m: GameMap, s: Session, hits: seq<Hit>, j: nat, k: nat)
    requires AreHits(m, s, hits) && j < k < |hits| && hits[j].LootHit? && hits[k].LootHit?
    ensures hits[j] != hits[k]
  {
  }

  /** A dog hits an object only if some point of its way is within DOG_WIDTH of it. */
  lemma CollectedWithinReach(m: GameMap, s: Session, hits: seq<Hit>, dog: nat, loot: nat)
    requires AreHits(m, s, hits) && SessionInv(m, s) && LootHit(dog, loot) in hits
    ensures dog in s.dogs && loot in s.lost
    ensures var g := s.dogs[dog].gatherer;
            exists t :: 0.0 <= t <= 1.0 &&
                SqDist(Along(g.startPos, g.endPos, t), s.lost[loot].position) <= DOG_WIDTH * DOG_WIDTH
  {
    HitsArePresent(m, s, hits);
    HitOfLoot(m, s, hits, dog, loot);
    var g := s.dogs[dog].gatherer;
    CollectedIff(g.startPos, g.endPos, s.lost[loot].position, LOOT_WIDTH + DOG_WIDTH);
  }

  /** No two dogs' ways collect the same object. */
  ghost predicate WaysApart(s: Session) {
    forall loot, d1, d2 :: loot in s.lost && d1 in s.dogs && d2 in s.dogs && d1 != d2 ==>
      !(Collects(s.dogs[d1].gatherer, LootItem(s.lost[loot])) && Collects(s.dogs[d2].gatherer, LootItem(s.lost[loot])))
  }

  /** When no two dogs' ways cross the same object, the replay is clean whatever the order of equal times. */
  lemma WaysApartIsClean(m: GameMap, s: Session, hits: seq<Hit>)
    requires AreHits(m, s, hits) && SessionInv(m, s) && NoPhantoms(s) && WaysApart(s)
    ensures DogsPresent(s, hits)
    ensures Replay(m.lootValues, s, hits).Fine? && NoPhantoms(Replay(m.lootValues, s, hits).s)
  {
    HitsArePresent(m, s, hits);
    var values := m.lootValues;
    forall k: nat, loot: nat | k < |hits| && PassesWithRoom(s, hits, k, loot)
      ensures !PassedBefore(s, hits, k, loot)
    {
      forall j: nat | j < k ensures !PassesWithRoom(s, hits, j, loot) {
        if hits[j].LootHit? && hits[j].loot == loot {
          assert hits[j] in hits && hits[k] in hits;
          PairsHitOnce(m, s, hits, j, k);
          HitOfLoot(m, s, hits, hits[j].dog, loot);
          HitOfLoot(m, s, hits, hits[k].dog, loot);
        }
      }
    }
    CleanIffUncontested(values, s, hits);
  }

  /** The tick of a session faults exactly when a dog reaches an office with an empty slot, one that it brought
      along or took in this tick. */
  lemma TickFaultIff(m: GameMap, s: Session, deltaMs: nat, hits: seq<Hit>)
    requires SessionInv(m, s) && AreHits(m, Moved(m, s, deltaMs), hits)
    ensures DogsPresent(Moved(m, s, deltaMs), hits)
    ensures AfterTick(m, s, deltaMs, hits).Fault? <==> FaultsBefore(Moved(m, s, deltaMs), hits, |hits|)
  {
    var moved := Moved(m, s, deltaMs);
    HitsArePresent(m, moved, hits);
    forall id | id in moved.dogs ensures BagKnown(moved.dogs[id].bag, m.lootValues) {
      AdvancedKeepsRest(m.roads, s.dogs[id], deltaMs);
      assert DogInv(m, s.dogs[id]);
    }
    hide Advanced, AreHits, Replay, FaultsBefore;
    FaultIff(m.lootValues, moved, hits);
  }

  // ---------------------------------------------------------------------------------------------
  // Invariant

  lemma MovedKeepsInv(m: GameMap, s: Session, deltaMs: nat)
    requires SessionInv(m, s) && DistinctIds(m.roads)
    ensures SessionInv(m, Moved(m, s, deltaMs))
  {
    var t := Moved(m, s, deltaMs);
    forall id | id in s.dogs ensures t.dogs[id].id == id && DogInv(m, t.dogs[id]) {
      DeedOnTheRoad(m, s.dogs[id], Tick(deltaMs));
      AdvancedKeepsRest(m.roads, s.dogs[id], deltaMs);
    }
  }

  lemma AdvancedKeepsRest(roads: seq<Road>, d: DogState, deltaMs: nat)
    ensures var e := Advanced(roads, d, deltaMs);
            && e.id == d.id && e.name == d.name && e.bag == d.bag && e.bagCapacity == d.bagCapacity
            && e.direction == d.direction && e.score == d.score && e.gatherer.width == d.gatherer.width
            && (ClocksOrdered(d) ==> ClocksOrdered(e))
  {
  }

  lemma HitKeepsInv(m: GameMap, s: Session, h: Hit)
    requires SessionInv(m, s) && h.dog in s.dogs && AfterHit(m.lootValues, s, h).Fine?
    ensures SessionInv(m, AfterHit(m.lootValues, s, h).s)
  {
  }

  lemma {:induction false} ReplayKeepsInv(m: GameMap, s: Session, hits: seq<Hit>)
    requires SessionInv(m, s) && DogsPresent(s, hits) && Replay(m.lootValues, s, hits).Fine?
    ensures SessionInv(m, Replay(m.lootValues, s, hits).s)
    ensures Replay(m.lootValues, s, hits).s.history.retired == s.history.retired
  {
    if hits != [] {
      var front := hits[..|hits| - 1];
      ReplayKeepsInv(m, s, front);
      HitKeepsInv(m, Replay(m.lootValues, s, front).s, hits[|hits| - 1]);
    }
  }

  lemma TickKeepsInv(m: GameMap, s: Session, deltaMs: nat, hits: seq<Hit>)
    requires SessionInv(m, s) && DistinctIds(m.roads) && DogsPresent(Moved(m, s, deltaMs), hits)
    requires AfterTick(m, s, deltaMs, hits).Fine?
    ensures SessionInv(m, AfterTick(m, s, deltaMs, hits).s)
  {
    MovedKeepsInv(m, s, deltaMs);
    ReplayKeepsInv(m, Moved(m, s, deltaMs), hits);
  }

  /** Replaying hits changes only bags and scores of dogs. */
  ghost predicate SameButBagAndScore(d: DogState, e: DogState) {
    e == d.(bag := e.bag, score := e.score)
  }

  lemma {:induction false} ReplayChangesBagAndScoreOnly(values: seq<nat>, s: Session, hits: seq<Hit>, id: nat)
    requires DogsPresent(s, hits) && Replay(values, s, hits).Fine? && id in s.dogs
    ensures SameButBagAndScore(s.dogs[id], Replay(values, s, hits).s.dogs[id])
  {
    if hits != [] {
      ReplayChangesBagAndScoreOnly(values, s, hits[..|hits| - 1], id);
    }
  }

  /** A session's dog after a tick is its old self advanced, apart from bag and score. */
  lemma TickAdvancesDogs(m: GameMap, s: Session, deltaMs: nat, hits: seq<Hit>, id: nat)
    requires DogsPresent(Moved(m, s, deltaMs), hits) && AfterTick(m, s, deltaMs, hits).Fine? && id in s.dogs
    ensures SameButBagAndScore(Advanced(m.roads, s.dogs[id], deltaMs), AfterTick(m, s, deltaMs, hits).s.dogs[id])
  {
    ReplayChangesBagAndScoreOnly(m.lootValues, Moved(m, s, deltaMs), hits, id);
  }
}
