/**
  A village with one street, and two players who join it and set off: the game in which some of the surprises of a
  tick are shown.  It is reached from a new game by two joins and two orders.
 */
module Village {
  import opened Wrappers
  import opened Geometry
  import opened RoadMap
  import opened Dogs
  import opened SessionModel
  import opened Registry
  import opened GameModel
  import opened GameRuns

  const PLACE := "village"
  const END := Vec(1.0, 0.0)
  const STREET := Road(0, 0, 10, 0, 0)

  function Map(offices: seq<Office>): GameMap { GameMap(PLACE, [STREET], offices, 1.0, 3, [10]) }

  /** The one object, at the start of the street. */
  const PRIZE := Loot(0, ORIGIN, 0)

  function NameOf(id: nat): string { if id == 0 then "rex" else "dog" }

  function Arriving(id: nat): DogState { NewDog(id, NameOf(id), ORIGIN, 3) }

  function Runner(id: nat): DogState { Arriving(id).(speed := END, direction := "R") }

  /** The session at the start of the race: both dogs at the start of the street, running to the right. */
  const RACE := Session(map[0 := Runner(0), 1 := Runner(1)], map[0 := PRIZE], History([PRIZE], [], map[]))

  function PlayerOf(id: nat): Player { Player(id, NameOf(id), PLACE, id) }

  function TokensOfOne(a: Token): Tokens { Tokens(map[a := 0], map[0 := PlayerOf(0)], map[0 := a]) }

  function TokensOfBoth(a: Token, b: Token): Tokens {
    Tokens(map[a := 0, b := 1], map[0 := PlayerOf(0), 1 := PlayerOf(1)], map[0 := a, 1 := b])
  }

  function Maps(offices: seq<Office>): map<MapId, GameMap> { map[PLACE := Map(offices)] }

  function OneJoined(offices: seq<Office>, a: Token): Game {
    Game(Maps(offices), map[PLACE := Session(map[0 := Arriving(0)], map[], History([], [], map[]))],
         map[NameOf(0) := 0], map[PLACE := {0}], TokensOfOne(a), 1, 1, 0)
  }

  /** Both have joined; the dogs are in their session. */
  function BothJoined(offices: seq<Office>, a: Token, b: Token, first: DogState, second: DogState): Game {
    Game(Maps(offices), map[PLACE := RACE.(dogs := map[0 := first, 1 := second])],
         map[NameOf(0) := 0, NameOf(1) := 1], map[PLACE := {0, 1}], TokensOfBoth(a, b), 2, 2, 1)
  }

  /** The game at the start of the race. */
  function RaceGame(offices: seq<Office>, a: Token, b: Token): Game {
    BothJoined(offices, a, b, Runner(0), Runner(1))
  }

  lemma MapIsValid(offices: seq<Office>)
    ensures Map(offices).Valid()
  {
  }

  lemma SameGame(g: Game, h: Game)
    requires g.maps == h.maps && g.sessions == h.sessions && g.nameToId == h.nameToId && g.onMap == h.onMap
    requires g.tokens.toId == h.tokens.toId && g.tokens.players == h.tokens.players && g.tokens.ofId == h.tokens.ofId
    requires g.nextPlayer == h.nextPlayer && g.nextDog == h.nextDog && g.nextLoot == h.nextLoot
    ensures g == h
  {
  }

  lemma FirstJoins(offices: seq<Office>, a: Token, limitMs: nat)
    ensures var g, step := NewGame(Maps(offices)), Join(NameOf(0), PLACE, ORIGIN, a, []);
            Legal(g, limitMs, step) && After(g, limitMs, step) == OneJoined(offices, a)
  {
    var s := AfterAddDog(EMPTY_SESSION, Arriving(0));
    assert AfterAddLoots(s, []) == s;
    assert Get(NewGame(Maps(offices)).onMap, PLACE) + {0} == {0};
    SameGame(After(NewGame(Maps(offices)), limitMs, Join(NameOf(0), PLACE, ORIGIN, a, [])), OneJoined(offices, a));
  }

  lemma SecondJoins(offices: seq<Office>, a: Token, b: Token, limitMs: nat)
    requires a != b
    ensures var g, step := OneJoined(offices, a), Join(NameOf(1), PLACE, ORIGIN, b, [PRIZE]);
            Legal(g, limitMs, step) && After(g, limitMs, step) == BothJoined(offices, a, b, Arriving(0), Arriving(1))
  {
    var s := AfterAddDog(OneJoined(offices, a).sessions[PLACE], Arriving(1));
    assert [PRIZE][..0] == [];
    assert AfterAddLoots(s, [PRIZE][..0]) == s;
    var t := AfterAddLoots(s, [PRIZE]);
    assert t == AfterAddLoot(s, PRIZE);
    assert t.dogs == map[0 := Arriving(0), 1 := Arriving(1)] && t.lost == RACE.lost && t.history == RACE.history;
    assert {0} + {1} == {0, 1};
    SameGame(After(OneJoined(offices, a), limitMs, Join(NameOf(1), PLACE, ORIGIN, b, [PRIZE])),
             BothJoined(offices, a, b, Arriving(0), Arriving(1)));
  }

  lemma SetsOff(id: nat)
    ensures Steered(Arriving(id), "R", 1.0) == Runner(id) && ValidDirection("R")
  {
  }

  lemma FirstSetsOff(offices: seq<Office>, a: Token, b: Token, limitMs: nat)
    ensures var g, step := BothJoined(offices, a, b, Arriving(0), Arriving(1)), Step.Order(0, "R");
            Legal(g, limitMs, step) && After(g, limitMs, step) == BothJoined(offices, a, b, Runner(0), Arriving(1))
  {
    SetsOff(0);
    hide Steered, Arriving, Runner;
    assert map[0 := Arriving(0), 1 := Arriving(1)][0 := Runner(0)] == map[0 := Runner(0), 1 := Arriving(1)];
    SameGame(After(BothJoined(offices, a, b, Arriving(0), Arriving(1)), limitMs, Step.Order(0, "R")),
             BothJoined(offices, a, b, Runner(0), Arriving(1)));
  }

  lemma SecondSetsOff(offices: seq<Office>, a: Token, b: Token, limitMs: nat)
    ensures var g, step := BothJoined(offices, a, b, Runner(0), Arriving(1)), Step.Order(1, "R");
            Legal(g, limitMs, step) && After(g, limitMs, step) == RaceGame(offices, a, b)
  {
    SetsOff(1);
    hide Steered, Arriving, Runner;
    assert map[0 := Runner(0), 1 := Arriving(1)][1 := Runner(1)] == map[0 := Runner(0), 1 := Runner(1)];
    SameGame(After(BothJoined(offices, a, b, Runner(0), Arriving(1)), limitMs, Step.Order(1, "R")),
             RaceGame(offices, a, b));
  }

  lemma EmptyRun(offices: seq<Office>, limitMs: nat)
    ensures IsRun([NewGame(Maps(offices))], limitMs, [])
  {
    MapIsValid(offices);
    NewGameInv(Maps(offices));
    hide GameInv;
  }

  /** The race is reached from a new game, so that it is a game of the invariant. */
  lemma RaceIsReached(offices: seq<Office>, a: Token, b: Token, limitMs: nat) returns (run: seq<Game>, steps: seq<Step>)
    requires a != b
    ensures IsRun(run, limitMs, steps) && |run| == |steps| + 1
    ensures run[0] == NewGame(Maps(offices)) && run[|steps|] == RaceGame(offices, a, b)
    ensures GameInv(RaceGame(offices, a, b))
  {
    hide IsRun, GameInv, Legal, After, RaceGame, BothJoined, OneJoined;
    EmptyRun(offices, limitMs);
    run, steps := [NewGame(Maps(offices))], [];
    FirstJoins(offices, a, limitMs);
    run, steps := Extended(run, limitMs, steps, Join(NameOf(0), PLACE, ORIGIN, a, []));
    SecondJoins(offices, a, b, limitMs);
    run, steps := Extended(run, limitMs, steps, Join(NameOf(1), PLACE, ORIGIN, b, [PRIZE]));
    FirstSetsOff(offices, a, b, limitMs);
    run, steps := Extended(run, limitMs, steps, Step.Order(0, "R"));
    SecondSetsOff(offices, a, b, limitMs);
    run, steps := Extended(run, limitMs, steps, Step.Order(1, "R"));
    RunsKeepInv(run, limitMs, steps, |steps|);
  }

  lemma Extended(run: seq<Game>, limitMs: nat, steps: seq<Step>, step: Step)
    returns (longer: seq<Game>, more: seq<Step>)
    requires IsRun(run, limitMs, steps) && |run| == |steps| + 1 && Legal(run[|steps|], limitMs, step)
    ensures IsRun(longer, limitMs, more) && |longer| == |more| + 1 && longer[0] == run[0]
    ensures longer[|more|] == After(run[|steps|], limitMs, step)
  {
    hide Legal, After, GameInv;
    RunOneMore(run, limitMs, steps, step);
    longer, more := run + [After(run[|steps|], limitMs, step)], steps + [step];
  }
}
