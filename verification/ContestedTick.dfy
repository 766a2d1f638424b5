/** A tick in which the program reads through an empty bag slot: two dogs, one object, one office. */
module ContestedTick {
  import opened Wrappers
  import opened Geometry
  import opened RoadMap
  import opened Dogs
  import opened CollisionDetector
  import opened Sorting
  import opened SessionModel
  import opened SessionContest
  import opened SessionTick
  import opened Registry
  import opened GameModel
  import opened GameRuns
  import G = Games
  import opened RunLedger
  import opened Village

  const OFFICES := [Office("office", END)]
  const VILLAGE := Village.Map(OFFICES)

  /** The way of a dog in the tick. */
  const WAY := Gatherer(ORIGIN, END, DOG_WIDTH)

  function Arrived(id: nat): DogState { Runner(id).(position := END, liveTime := 1000, gatherer := WAY) }

  const FINISH := RACE.(dogs := map[0 := Arrived(0), 1 := Arrived(1)])

  lemma OneRoad(p: Vec, excepted: Option<nat>)
    ensures RoadAt([STREET], p, excepted) == if Accepts(STREET, p, excepted) then Some(STREET) else None
  {
    assert [STREET][1..] == [];
  }

  lemma ClampedAtTheEnd()
    ensures STREET.Contains(ORIGIN) && STREET.Contains(END)
    ensures ClampTo(STREET, END) == END && SpeedOn(STREET, END, END) == END
  {
  }

  lemma FurtherIsPreferred()
    ensures Prefer(ORIGIN, END, END, ORIGIN, ORIGIN) == (END, END)
  {
    assert SqDist(END, ORIGIN) == 1.0 && SqDist(ORIGIN, ORIGIN) == 0.0;
  }

  lemma TheMove()
    ensures Travel([STREET], ORIGIN, END, END) == (END, END)
  {
    ClampedAtTheEnd();
    FurtherIsPreferred();
    hide ClampTo, SpeedOn, Prefer, RoadAt;
    OneRoad(ORIGIN, None);
    OneRoad(END, Some(0));
  }

  lemma RunnerArrives(id: nat)
    ensures Advanced([STREET], Runner(id), 1000) == Arrived(id)
  {
    hide Travel, Target, NameOf;
    AimedAtTheEnd();
    TheMove();
  }

  lemma AimedAtTheEnd()
    ensures Target(ORIGIN, END, 1000) == END
  {
  }

  lemma EverybodyArrives()
    ensures Moved(VILLAGE, RACE, 1000) == FINISH
  {
    hide Advanced;
    RunnerArrives(0);
    RunnerArrives(1);
  }

  const ITEMS := [Item(ORIGIN, LOOT_WIDTH), Item(END, BASE_WIDTH)]
  const EVENTS := [GatheringEvent(0, 0, 0.0, 0.0), GatheringEvent(0, 1, 0.0, 0.0),
                   GatheringEvent(1, 1, 0.0, 1.0), GatheringEvent(1, 0, 0.0, 1.0)]
  const CONTEST := [LootHit(0, 0), LootHit(1, 0), OfficeHit(1), OfficeHit(0)]

  lemma Products()
    ensures SqLen(ORIGIN) == 0.0 && SqLen(END) == 1.0 && Dot(ORIGIN, END) == 0.0 && Dot(END, END) == 1.0
  {
    hide Dot;
    DotOf(0.0, 0.0, 0.0);
    DotOf(0.0, 1.0, 0.0);
    DotOf(1.0, 1.0, 1.0);
  }

  lemma Differences()
    ensures Sub(ORIGIN, ORIGIN) == ORIGIN && Sub(END, ORIGIN) == END
  {
  }

  lemma DotOf(x: real, y: real, p: real)
    requires p == x * y
    ensures Dot(Vec(x, 0.0), Vec(y, 0.0)) == p
  {
  }

  lemma NoDistance(r: CollectionResult, radius: real)
    requires r.sqDistance == 0.0 && 0.0 <= r.projRatio <= 1.0
    ensures r.IsCollected(radius)
  {
    SquareSign(radius);
  }

  lemma TwoResults()
    ensures ResultFrom(0.0, 0.0, 1.0) == CollectionResult(0.0, 0.0)
    ensures ResultFrom(1.0, 1.0, 1.0) == CollectionResult(0.0, 1.0)
  {
  }

  lemma TwoPoints()
    ensures TryCollectPoint(ORIGIN, END, ORIGIN) == CollectionResult(0.0, 0.0)
    ensures TryCollectPoint(ORIGIN, END, END) == CollectionResult(0.0, 1.0)
  {
    Products();
    Differences();
    TwoResults();
    hide SqLen, Dot, Sub, ResultFrom;
  }

  /** Both items are on the way, one at its start and one at its end. */
  lemma ItemsOnTheWay()
    ensures TryCollectPoint(ORIGIN, END, ORIGIN) == CollectionResult(0.0, 0.0)
    ensures TryCollectPoint(ORIGIN, END, END) == CollectionResult(0.0, 1.0)
    ensures Collects(WAY, Item(ORIGIN, LOOT_WIDTH)) && Collects(WAY, Item(END, BASE_WIDTH))
  {
    hide TryCollectPoint;
    TwoPoints();
    NoDistance(CollectionResult(0.0, 0.0), LOOT_WIDTH + DOG_WIDTH);
    NoDistance(CollectionResult(0.0, 1.0), BASE_WIDTH + DOG_WIDTH);
    hide CollectionResult.IsCollected;
  }

  lemma FourEvents(e: GatheringEvent)
    ensures e in EVENTS <==> IsEvent(ITEMS, [WAY, WAY], e)
  {
    ItemsOnTheWay();
    hide TryCollectPoint;
  }

  lemma TheTimeline()
    ensures IsTimeline(ITEMS, [WAY, WAY], EVENTS)
  {
    hide IsEvent;
    forall e ensures e in EVENTS <==> IsEvent(ITEMS, [WAY, WAY], e) {
      FourEvents(e);
    }
  }

  lemma TheHits()
    ensures AreHits(VILLAGE, FINISH, CONTEST)
  {
    TheTimeline();
    hide IsTimeline;
    assert Gatherers(FINISH.dogs, [0, 1]) == [WAY, WAY];
    assert Items(FINISH.lost, [0], VILLAGE.offices) == ITEMS;
    assert HitsFrom(VILLAGE, FINISH, CONTEST, [0, 1], [0], EVENTS);
  }

  /** The second dog takes an empty slot to the office. */
  lemma TheFault()
    ensures DogsPresent(FINISH, CONTEST) && FaultsBefore(FINISH, CONTEST, 4)
  {
    assert PassesWithRoom(FINISH, CONTEST, 0, 0);
    assert BagLen(FINISH, CONTEST, 1, 1) == 0;
    assert TakesEmpty(FINISH, CONTEST, 1);
    assert CarriesEmpty(FINISH, CONTEST, 2, 1);
    assert FaultsAt(FINISH, CONTEST, 2);
  }

  lemma RaceIsSound(offices: seq<Office>)
    ensures SessionInv(Village.Map(offices), RACE) && NoPhantoms(RACE)
  {
  }

  lemma RaceFaults()
    ensures AreHits(VILLAGE, Moved(VILLAGE, RACE, 1000), CONTEST)
    ensures G.Game.SessionFaulted(VILLAGE, RACE, 1000, CONTEST)
  {
    EverybodyArrives();
    TheHits();
    TheFault();
    RaceIsSound(OFFICES);
    hide AreHits, FaultsBefore, Moved, Replay, SessionInv;
    TickFaultIff(VILLAGE, RACE, 1000, CONTEST);
  }

  /** The ticker can fault in a game reached from a new one, in which no bag has an empty slot: both dogs pass the
      object at the start of their way and the office at its end, and the second one has an empty slot by then. */
  lemma ContestedTickCanFault(a: Token, b: Token, limitMs: nat) returns (run: seq<Game>, steps: seq<Step>)
    requires a != b
    ensures IsRun(run, limitMs, steps) && run[0] == NewGame(Maps(OFFICES))
    ensures AllClean(run[|steps|]) && G.Game.TickFaulted(run[|steps|], 1000)
  {
    hide IsRun, GameInv, G.Game.SessionFaulted, AreHits, Moved, NoPhantoms;
    run, steps := RaceIsReached(OFFICES, a, b, limitMs);
    RaceIsSound(OFFICES);
    RaceFaults();
    var g := RaceGame(OFFICES, a, b);
    assert PLACE in g.sessions && g.sessions[PLACE] == RACE && g.maps[PLACE] == VILLAGE;
  }
}
