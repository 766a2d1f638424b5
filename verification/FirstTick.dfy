/** The first tick of a dog: its gathering segment starts at the origin, wherever the dog was put. */
module FirstTick {
  import opened Wrappers
  import opened Geometry
  import opened RoadMap
  import opened Dogs
  import opened CollisionDetector
  import opened Sorting
  import opened SessionModel
  import opened SessionTick
  import opened ContestedTick
  import opened Registry
  import opened GameModel
  import opened GameRuns
  import opened DogRuns
  import opened Village

  /** The gathering segment is the way of the tick exactly if it ended where the dog stood. */
  lemma SegmentIsWayIff(roads: seq<Road>, d: DogState, deltaMs: nat)
    ensures var e := Advanced(roads, d, deltaMs);
            e.gatherer == Gatherer(d.position, e.position, d.gatherer.width) <==> d.gatherer.endPos == d.position
  {
    hide Travel, Target;
  }

  /** In the first tick of a dog that has just joined the gathering segment is its way exactly if it was put at the
      origin, as all dogs are that are not put at a drawn place. */
  lemma FirstSegmentIff(roads: seq<Road>, id: nat, name: string, spawn: Vec, bagCapacity: nat, deltaMs: nat)
    ensures var e := Advanced(roads, NewDog(id, name, spawn, bagCapacity), deltaMs);
            e.gatherer == Gatherer(spawn, e.position, 0.3) <==> spawn == Vec(0.0, 0.0)
  {
    hide Travel, Target;
  }

  /** A dog that has just joined at the end of the street, and an object at its start. */
  const NEWCOMER := NewDog(0, NameOf(0), END, 3)
  const ARRIVAL := Session(map[0 := NEWCOMER], map[0 := PRIZE], History([PRIZE], [], map[]))

  lemma HereOrThere(p: Vec, speedHere: Vec, speedThere: Vec)
    ensures Prefer(p, p, speedHere, p, speedThere).0 == p
  {
    hide SqDist, SqLen;
  }

  lemma NoMove()
    ensures Travel([STREET], END, END, ORIGIN).0 == END
  {
    ClampedAtTheEnd();
    HereOrThere(END, SpeedOn(STREET, END, ORIGIN), ORIGIN);
    hide ClampTo, SpeedOn, Prefer, RoadAt;
    OneRoad(END, None);
    OneRoad(END, Some(0));
  }

  lemma NewcomerStays()
    ensures Advanced([STREET], NEWCOMER, 1000).position == END && Advanced([STREET], NEWCOMER, 1000).gatherer == WAY
  {
    assert Target(END, ORIGIN, 1000) == END;
    NoMove();
    hide Travel, Target;
  }

  lemma TooFar(t: real)
    ensures SqDist(Along(END, END, t), ORIGIN) == 1.0
  {
    assert Along(END, END, t) == END;
    assert Sub(END, ORIGIN) == END;
  }

  lemma OutOfReach()
    ensures !WithinReach(END, END, ORIGIN)
  {
    forall t ensures SqDist(Along(END, END, t), ORIGIN) > DOG_WIDTH * DOG_WIDTH {
      TooFar(t);
    }
  }

  lemma ArrivalIsSound()
    ensures VILLAGE.Valid() && SessionInv(VILLAGE, ARRIVAL)
  {
  }

  lemma OneDogMoves(m: GameMap, d: DogState, lost: map<nat, Loot>, history: History, deltaMs: nat)
    ensures Moved(m, Session(map[0 := d], lost, history), deltaMs) ==
            Session(map[0 := Advanced(m.roads, d, deltaMs)], lost, history)
  {
    hide Advanced;
  }

  lemma NewcomerAfter()
    ensures var d := Advanced([STREET], NEWCOMER, 1000); d.gatherer == WAY && d.bag == []
  {
    NewcomerStays();
    AdvancedKeepsRest([STREET], NEWCOMER, 1000);
    hide Advanced;
  }

  /** After the tick the dog stands where it stood, with a segment that comes from the origin. */
  lemma ArrivalMoved()
    ensures IsLonely(Moved(VILLAGE, ARRIVAL, 1000))
  {
    OneDogMoves(VILLAGE, NEWCOMER, map[0 := PRIZE], History([PRIZE], [], map[]), 1000);
    NewcomerAfter();
    hide Advanced, Moved;
  }

  /** A session with one dog that came along the way, and the object. */
  ghost predicate IsLonely(s: Session) {
    s.dogs.Keys == {0} && s.dogs[0].gatherer == WAY && s.dogs[0].bag == [] && s.lost == map[0 := PRIZE]
  }

  lemma HitsFromAfar(hits: seq<Hit>)
    requires AreHits(VILLAGE, Moved(VILLAGE, ARRIVAL, 1000), hits)
    ensures LootHit(0, 0) in hits
  {
    ArrivalMoved();
    ItemsOnTheWay();
    hide AreHits, Advanced, Collects, Moved, TryCollectPoint;
    HitOfLoot(VILLAGE, Moved(VILLAGE, ARRIVAL, 1000), hits, 0, 0);
  }

  /** The join of the newcomer to a new game. */
  function TheJoin(a: Token): Step { Join(NameOf(0), PLACE, END, a, [PRIZE]) }

  lemma NewcomerJoins(a: Token, limitMs: nat)
    ensures var g := NewGame(Maps(OFFICES));
            && GameInv(g) && Legal(g, limitMs, TheJoin(a))
            && var h := After(g, limitMs, TheJoin(a)); h.maps == g.maps && h.sessions == map[PLACE := ARRIVAL]
  {
    MapIsValid(OFFICES);
    NewGameInv(Maps(OFFICES));
    var s := AfterAddDog(EMPTY_SESSION, NEWCOMER);
    assert [PRIZE][..0] == [];
    assert AfterAddLoots(s, [PRIZE][..0]) == s;
    var t := AfterAddLoots(s, [PRIZE]);
    assert t == AfterAddLoot(s, PRIZE);
    assert t.dogs == ARRIVAL.dogs && t.lost == ARRIVAL.lost && t.history == ARRIVAL.history;
  }

  const BACK_AND_HERE := [LootHit(0, 0), OfficeHit(0)]
  const BACK_AND_HERE_EVENTS := [GatheringEvent(0, 0, 0.0, 0.0), GatheringEvent(1, 0, 0.0, 1.0)]

  lemma BothItems(e: GatheringEvent)
    ensures e in BACK_AND_HERE_EVENTS <==> IsEvent(ITEMS, [WAY], e)
  {
    ItemsOnTheWay();
    hide TryCollectPoint;
  }

  lemma LonelyHits(s: Session)
    requires IsLonely(s)
    ensures AreHits(VILLAGE, s, BACK_AND_HERE)
  {
    forall e ensures e in BACK_AND_HERE_EVENTS <==> IsEvent(ITEMS, [WAY], e) {
      BothItems(e);
    }
    hide IsEvent;
    assert IsTimeline(ITEMS, [WAY], BACK_AND_HERE_EVENTS);
    hide IsTimeline;
    assert Gatherers(s.dogs, [0]) == [WAY];
    assert Items(s.lost, [0], VILLAGE.offices) == ITEMS;
    assert HitsFrom(VILLAGE, s, BACK_AND_HERE, [0], [0], BACK_AND_HERE_EVENTS);
  }

  lemma LonelyIsClean(s: Session)
    requires IsLonely(s)
    ensures NoPhantoms(s) && WaysApart(s)
  {
    hide Collects;
  }

  lemma NewcomerTickIsFine()
    ensures TickIsFine(VILLAGE, ARRIVAL, 1000, BACK_AND_HERE)
  {
    ArrivalIsSound();
    ArrivalMoved();
    MovedKeepsInv(VILLAGE, ARRIVAL, 1000);
    hide AreHits, Moved, SessionInv, NoPhantoms, WaysApart, Replay;
    LonelyHits(Moved(VILLAGE, ARRIVAL, 1000));
    LonelyIsClean(Moved(VILLAGE, ARRIVAL, 1000));
    WaysApartIsClean(VILLAGE, Moved(VILLAGE, ARRIVAL, 1000), BACK_AND_HERE);
  }

  /** The game has one session, that of the arrival. */
  ghost predicate IsArrival(g: Game) {
    g.sessions == map[PLACE := ARRIVAL] && PLACE in g.maps && g.maps[PLACE] == VILLAGE
  }

  function NewcomersHits(): map<MapId, seq<Hit>> { map[PLACE := BACK_AND_HERE] }

  lemma NewcomersTicksAreFine(g: Game)
    requires IsArrival(g)
    ensures TicksAreFine(g, 1000, NewcomersHits())
  {
    NewcomerTickIsFine();
    hide TickIsFine;
  }

  lemma NewcomerStaysActive(g: Game, limitMs: nat)
    requires IsArrival(g) && limitMs > 1000 && TicksAreFine(g, 1000, NewcomersHits())
    ensures AllActive(AfterTicks(g, 1000, NewcomersHits()), limitMs)
  {
    var hits := NewcomersHits();
    hide TicksAreFine, AfterTicks, Advanced, NewcomersHits;
    var h := AfterTicks(g, 1000, hits);
    forall k, dog | k in h.sessions && dog in h.sessions[k].dogs ensures h.sessions[k].dogs[dog].afkTime < limitMs {
      TicksChangeSessions(g, 1000, hits);
      TicksBringNobody(g, 1000, hits);
      TickedClocks(g, 1000, hits, k, dog);
    }
  }

  lemma TickAtArrival(g: Game, limitMs: nat)
    requires IsArrival(g) && limitMs > 1000
    ensures Legal(g, limitMs, Ticker(1000, NewcomersHits(), []))
  {
    hide IsArrival, NewcomersHits, TicksAreFine, AfterTicks, AllActive, Legal, After;
    NewcomersTicksAreFine(g);
    NewcomerStaysActive(g, limitMs);
    TickerWithoutRetirements(g, limitMs, 1000, NewcomersHits());
  }

  /** After the first join to a new game the ticker can take a step. */
  lemma FirstTickHappens(a: Token, limitMs: nat)
    requires limitMs > 1000
    ensures var g := NewGame(Maps(OFFICES));
            && Legal(g, limitMs, TheJoin(a))
            && Legal(After(g, limitMs, TheJoin(a)), limitMs, Ticker(1000, NewcomersHits(), []))
  {
    hide Legal, After, GameInv;
    NewcomerJoins(a, limitMs);
    TickAtArrival(After(NewGame(Maps(OFFICES)), limitMs, TheJoin(a)), limitMs);
  }

  /** A newcomer that does not move takes part in the first tick as if it had come from the origin: whatever step the
      ticker takes after the first join to a new game, the dog hits an object out of its reach. */
  lemma FirstTickReachesBack(a: Token, limitMs: nat, hits: map<MapId, seq<Hit>>, afk: seq<nat>)
    requires var g := NewGame(Maps(OFFICES));
             Legal(g, limitMs, TheJoin(a)) && Legal(After(g, limitMs, TheJoin(a)), limitMs, Ticker(1000, hits, afk))
    ensures Advanced(VILLAGE.roads, NEWCOMER, 1000).position == NEWCOMER.position
    ensures PLACE in hits && LootHit(0, 0) in hits[PLACE]
    ensures !WithinReach(NEWCOMER.position, NEWCOMER.position, PRIZE.position)
  {
    NewcomerStays();
    OutOfReach();
    NewcomerJoins(a, limitMs);
    hide AreHits, Advanced, WithinReach, Moved, GameInv, AfterTicks, IsAfkList;
    var h := After(NewGame(Maps(OFFICES)), limitMs, TheJoin(a));
    assert h.sessions[PLACE] == ARRIVAL && h.maps[PLACE] == VILLAGE;
    HitsFromAfar(hits[PLACE]);
  }
}
