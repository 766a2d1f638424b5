/**
  A tick without a fault after which the game cannot be saved, and whose outcome depends on the order of events of one
  moment: two dogs pass an object at the same time, and there is no office.
 */
module TiedTick {
  import opened Wrappers
  import opened Geometry
  import opened RoadMap
  import opened Dogs
  import opened CollisionDetector
  import opened Sorting
  import opened SessionModel
  import opened SessionTick
  import opened ContestedTick
  import opened Registry
  import opened GameModel
  import opened GameRuns
  import opened RunLedger
  import opened Village
  import opened Serialization
  import opened RoundTrip
  import opened TickOrder

  /** The same village without an office. */
  const HAMLET := Village.Map([])

  /** The events of the tick, with one dog first and then the other. */
  function Passes(first: nat, second: nat): seq<GatheringEvent> {
    [GatheringEvent(0, first, 0.0, 0.0), GatheringEvent(0, second, 0.0, 0.0)]
  }

  function PrizeHits(first: nat, second: nat): seq<Hit> { [LootHit(first, 0), LootHit(second, 0)] }

  lemma BothPass(first: nat, second: nat, e: GatheringEvent)
    requires first + second == 1
    ensures e in Passes(first, second) <==> IsEvent([Item(ORIGIN, LOOT_WIDTH)], [WAY, WAY], e)
  {
    ItemsOnTheWay();
    hide TryCollectPoint;
  }

  lemma EitherOrder(first: nat, second: nat)
    requires first + second == 1
    ensures AreHits(HAMLET, FINISH, PrizeHits(first, second))
  {
    var events := Passes(first, second);
    forall e ensures e in events <==> IsEvent([Item(ORIGIN, LOOT_WIDTH)], [WAY, WAY], e) {
      BothPass(first, second, e);
    }
    hide IsEvent;
    assert IsTimeline([Item(ORIGIN, LOOT_WIDTH)], [WAY, WAY], events);
    hide IsTimeline;
    assert Gatherers(FINISH.dogs, [0, 1]) == [WAY, WAY];
    assert Items(FINISH.lost, [0], HAMLET.offices) == [Item(ORIGIN, LOOT_WIDTH)];
    assert HitsFrom(HAMLET, FINISH, PrizeHits(first, second), [0, 1], [0], events);
  }

  /** The first dog has the object, the second an empty slot, and both are active. */
  predicate IsWon(s: Session, first: nat, second: nat) {
    && s.dogs.Keys == {0, 1} && first in s.dogs && second in s.dogs
    && s.dogs[first].bag == [Some(PRIZE)] && s.dogs[second].bag == [None]
    && s.dogs[0].afkTime == 0 && s.dogs[1].afkTime == 0
  }

  lemma FirstHasIt(first: nat, second: nat)
    requires first + second == 1
    ensures DogsPresent(FINISH, PrizeHits(first, second))
    ensures var o := Replay(HAMLET.lootValues, FINISH, PrizeHits(first, second));
            o.Fine? && IsWon(o.s, first, second)
  {
    var hits := PrizeHits(first, second);
    var s1 := AfterCollect(FINISH, first, 0);
    assert hits[..1] == [LootHit(first, 0)] && hits[..1][..0] == [];
    assert Replay(HAMLET.lootValues, FINISH, hits[..1]) == Fine(s1);
  }

  lemma TheyArrive()
    ensures Moved(HAMLET, RACE, 1000) == FINISH
  {
    EverybodyArrives();
    hide Advanced;
    assert HAMLET.roads == VILLAGE.roads;
  }

  /** The tick of the session, with one dog first. */
  lemma TheTick(first: nat, second: nat)
    requires first + second == 1
    ensures TickIsFine(HAMLET, RACE, 1000, PrizeHits(first, second))
    ensures IsWon(AfterTick(HAMLET, RACE, 1000, PrizeHits(first, second)).s, first, second)
  {
    hide AreHits, Moved, Replay, PrizeHits, IsWon;
    TheyArrive();
    EitherOrder(first, second);
    FirstHasIt(first, second);
  }

  /** The hits of all sessions. */
  function HitsOfAll(first: nat, second: nat): map<MapId, seq<Hit>> { map[PLACE := PrizeHits(first, second)] }

  function TheTicker(first: nat, second: nat): Step { Ticker(1000, HitsOfAll(first, second), []) }

  /** The game has one session, and that is the race. */
  ghost predicate IsRace(g: Game) { g.sessions == map[PLACE := RACE] && PLACE in g.maps && g.maps[PLACE] == HAMLET }

  lemma TicksOfTheRace(g: Game, first: nat, second: nat)
    requires first + second == 1 && IsRace(g)
    ensures TicksAreFine(g, 1000, HitsOfAll(first, second))
    ensures var h := AfterTicks(g, 1000, HitsOfAll(first, second));
            h.sessions.Keys == {PLACE} && h.sessions[PLACE] == AfterTick(HAMLET, RACE, 1000, PrizeHits(first, second)).s
  {
    hide AreHits, Moved, Replay, PrizeHits, TickIsFine;
    TheTick(first, second);
    hide AfterTick;
  }

  lemma WinnersAreActive(s: Session, first: nat, second: nat, limitMs: nat)
    requires IsWon(s, first, second) && limitMs > 0
    ensures forall dog :: dog in s.dogs ==> s.dogs[dog].afkTime < limitMs
  {
  }

  lemma RunnersAreActive(g: Game, limitMs: nat, first: nat, second: nat)
    requires first + second == 1 && limitMs > 0 && IsRace(g) && TicksAreFine(g, 1000, HitsOfAll(first, second))
    ensures AllActive(AfterTicks(g, 1000, HitsOfAll(first, second)), limitMs)
  {
    hide TicksAreFine, AfterTicks, AfterTick, AreHits, Moved, Replay, HitsOfAll, PrizeHits, IsRace, IsWon;
    TicksOfTheRace(g, first, second);
    TheTick(first, second);
    WinnersAreActive(AfterTick(HAMLET, RACE, 1000, PrizeHits(first, second)).s, first, second, limitMs);
  }

  /** Either order of the two events is a legal step of the ticker, and retires nobody. */
  lemma EitherTickerIsLegal(g: Game, limitMs: nat, first: nat, second: nat)
    requires first + second == 1 && limitMs > 0 && IsRace(g)
    ensures Legal(g, limitMs, TheTicker(first, second))
    ensures var h := After(g, limitMs, TheTicker(first, second));
            PLACE in h.sessions && h.sessions[PLACE] == AfterTick(HAMLET, RACE, 1000, PrizeHits(first, second)).s
  {
    hide TicksAreFine, AfterTicks, AfterTick, TickIsFine, IsRace, AllActive, HitsOfAll, PrizeHits, Legal, After;
    TicksOfTheRace(g, first, second);
    RunnersAreActive(g, limitMs, first, second);
    TickerWithoutRetirements(g, limitMs, 1000, HitsOfAll(first, second));
  }

  lemma EmptySlotIsNoSave(g: Game, k: MapId, r: GameRepr)
    requires GameInv(g) && k in g.sessions && !NoPhantoms(g.sessions[k])
    ensures !AllClean(g) && !IsSaveOf(r, g)
  {
    hide NoPhantoms, GameInv, IsSaveOf;
    if IsSaveOf(r, g) {
      SavedMeansClean(g, r);
    }
  }

  lemma SlotIsEmpty(first: nat, second: nat)
    requires first + second == 1
    ensures TickIsFine(HAMLET, RACE, 1000, PrizeHits(first, second))
    ensures !NoPhantoms(AfterTick(HAMLET, RACE, 1000, PrizeHits(first, second)).s)
  {
    TheTick(first, second);
    hide AreHits, Moved, Replay, PrizeHits, AfterTick, TickIsFine;
    var t := AfterTick(HAMLET, RACE, 1000, PrizeHits(first, second)).s;
    assert second in t.dogs && t.dogs[second].bag[0] == None;
  }

  lemma RaceGameIsRace(a: Token, b: Token)
    ensures IsRace(RaceGame([], a, b)) && AllClean(RaceGame([], a, b))
  {
    RaceIsSound([]);
    hide NoPhantoms;
    assert RaceGame([], a, b).sessions == map[PLACE := RACE];
  }

  lemma SpoiledAfter(g: Game, limitMs: nat)
    requires GameInv(g) && limitMs > 0 && IsRace(g)
    ensures Legal(g, limitMs, TheTicker(0, 1))
    ensures var h := After(g, limitMs, TheTicker(0, 1)); !AllClean(h) && forall r :: !IsSaveOf(r, h)
  {
    hide GameInv, Legal, After, IsSaveOf, NoPhantoms, AfterTick, TheTicker, IsRace;
    EitherTickerIsLegal(g, limitMs, 0, 1);
    SlotIsEmpty(0, 1);
    StepKeepsInv(g, limitMs, TheTicker(0, 1));
    var h := After(g, limitMs, TheTicker(0, 1));
    forall r ensures !AllClean(h) && !IsSaveOf(r, h) {
      EmptySlotIsNoSave(h, PLACE, r);
    }
  }

  /** A step of the ticker, in a game reached from a new one in which no bag has an empty slot, can be without a fault
      and leave a game that no file saves. */
  lemma FineTickSpoilsSave(a: Token, b: Token, limitMs: nat) returns (run: seq<Game>, steps: seq<Step>)
    requires a != b && limitMs > 0
    ensures IsRun(run, limitMs, steps) && run[0] == NewGame(Maps([])) && AllClean(run[|steps|])
    ensures Legal(run[|steps|], limitMs, TheTicker(0, 1))
    ensures var h := After(run[|steps|], limitMs, TheTicker(0, 1)); !AllClean(h) && forall r :: !IsSaveOf(r, h)
  {
    hide IsRun, GameInv, Legal, After, AllClean, IsSaveOf, TheTicker, IsRace, RaceGame;
    run, steps := RaceIsReached([], a, b, limitMs);
    RaceGameIsRace(a, b);
    SpoiledAfter(RaceGame([], a, b), limitMs);
  }

  lemma FirstDogDiffers(s: Session, t: Session)
    requires 0 in s.dogs && 0 in t.dogs && s.dogs[0].bag != t.dogs[0].bag
    ensures !SameOutcome(Fine(s), Fine(t))
  {
  }

  lemma TwoOutcomes(g: Game, limitMs: nat)
    requires limitMs > 0 && IsRace(g)
    ensures Legal(g, limitMs, TheTicker(0, 1)) && Legal(g, limitMs, TheTicker(1, 0))
    ensures var s, t := After(g, limitMs, TheTicker(0, 1)).sessions, After(g, limitMs, TheTicker(1, 0)).sessions;
            PLACE in s && PLACE in t && !SameOutcome(Fine(s[PLACE]), Fine(t[PLACE]))
  {
    EitherTickerIsLegal(g, limitMs, 0, 1);
    EitherTickerIsLegal(g, limitMs, 1, 0);
    TheTick(0, 1);
    TheTick(1, 0);
    hide Legal, After, SameOutcome, AfterTick, TheTicker, IsRace, TickIsFine;
    FirstDogDiffers(AfterTick(HAMLET, RACE, 1000, PrizeHits(0, 1)).s, AfterTick(HAMLET, RACE, 1000, PrizeHits(1, 0)).s);
  }

  /** In a game reached from a new one both orders of two events of one moment are legal steps of the ticker, and their
      outcomes differ: the dog handled first has the object. */
  lemma TiesMakeADifference(a: Token, b: Token, limitMs: nat) returns (run: seq<Game>, steps: seq<Step>)
    requires a != b && limitMs > 0
    ensures IsRun(run, limitMs, steps) && run[0] == NewGame(Maps([]))
    ensures var g := run[|steps|];
            && Legal(g, limitMs, TheTicker(0, 1)) && Legal(g, limitMs, TheTicker(1, 0))
            && var s, t := After(g, limitMs, TheTicker(0, 1)).sessions, After(g, limitMs, TheTicker(1, 0)).sessions;
               PLACE in s && PLACE in t && !SameOutcome(Fine(s[PLACE]), Fine(t[PLACE]))
  {
    hide IsRun, GameInv, Legal, After, SameOutcome, TheTicker, IsRace, RaceGame, AllClean;
    run, steps := RaceIsReached([], a, b, limitMs);
    RaceGameIsRace(a, b);
    TwoOutcomes(RaceGame([], a, b), limitMs);
  }
}
