/** The whole game as a value, and each of its operations as a function on it. */
module GameModel {
  import opened Wrappers
  import opened Geometry
  import opened RoadMap
  import opened Dogs
  import opened SessionModel
  import opened SessionTick
  import opened SessionLedger
  import opened Registry

  datatype Game = Game(
    maps: map<MapId, GameMap>,
    sessions: map<MapId, Session>,
    nameToId: map<string, nat>,
    onMap: map<MapId, set<nat>>,
    tokens: Tokens,
    nextPlayer: nat,
    nextDog: nat,
    nextLoot: nat)

  function NewGame(maps: map<MapId, GameMap>): Game {
    Game(maps, map[], map[], map[], NO_TOKENS, 0, 0, 0)
  }

  function Names(s: Session): map<nat, string> {
    map id | id in s.dogs :: s.dogs[id].name
  }

  function DogNames(sessions: map<MapId, Session>): map<MapId, map<nat, string>> {
    map k | k in sessions :: Names(sessions[k])
  }

  function IndexOf(g: Game): Index {
    Index(g.tokens, g.nameToId, g.onMap, DogNames(g.sessions))
  }

  // ---------------------------------------------------------------------------------------------
  // Operations

  function SessionOf(g: Game, k: MapId): Session {
    if k in g.sessions then g.sessions[k] else EMPTY_SESSION
  }

  function PutSession(g: Game, k: MapId, s: Session): Game { g.(sessions := g.sessions[k := s]) }

  /** Files a player whose dog is in its session already. */
  function Filed(g: Game, p: Player, token: Token): Game {
    g.(nameToId := g.nameToId[p.name := p.id],
       onMap := g.onMap[p.mapId := Get(g.onMap, p.mapId) + {p.id}],
       tokens := WithPlayer(g.tokens, p, token))
  }

  /** A player of a new name joins at `spawn`, and the objects `loots` appear. */
  function AfterJoin(g: Game, name: string, k: MapId, spawn: Vec, token: Token, loots: seq<Loot>): Game
    requires k in g.maps
  {
    var dog := NewDog(g.nextDog, name, spawn, g.maps[k].bagCapacity);
    var s := AfterAddLoots(AfterAddDog(SessionOf(g, k), dog), loots);
    Filed(PutSession(g, k, s), Player(g.nextPlayer, name, k, dog.id), token)
      .(nextPlayer := g.nextPlayer + 1, nextDog := g.nextDog + 1, nextLoot := g.nextLoot + |loots|)
  }

  /** A session after one of its dogs gets an order. */
  function AfterSteer(s: Session, dog: nat, direction: string, dogSpeed: real): Session
    requires dog in s.dogs
  {
    if ValidDirection(direction) then s.(dogs := s.dogs[dog := Steered(s.dogs[dog], direction, dogSpeed)]) else s
  }

  function AfterNewLoot(g: Game, k: MapId, loots: seq<Loot>): Game {
    PutSession(g, k, AfterAddLoots(SessionOf(g, k), loots)).(nextLoot := g.nextLoot + |loots|)
  }

  /** The hits of one session's tick are its gather events, and their replay does not fault. */
  ghost predicate TickIsFine(m: GameMap, s: Session, deltaMs: nat, hits: seq<Hit>) {
    && AreHits(m, Moved(m, s, deltaMs), hits)
    && DogsPresent(Moved(m, s, deltaMs), hits)
    && AfterTick(m, s, deltaMs, hits).Fine?
  }

  ghost predicate TicksAreFine(g: Game, deltaMs: nat, hits: map<MapId, seq<Hit>>) {
    forall k :: k in g.sessions ==> k in g.maps && k in hits && TickIsFine(g.maps[k], g.sessions[k], deltaMs, hits[k])
  }

  ghost function AfterTicks(g: Game, deltaMs: nat, hits: map<MapId, seq<Hit>>): Game
    requires TicksAreFine(g, deltaMs, hits)
  {
    g.(sessions := map k | k in g.sessions :: AfterTick(g.maps[k], g.sessions[k], deltaMs, hits[k]).s)
  }

  /** One player retires: the dog leaves its session, and the player every index. */
  function AfterRetire(g: Game, id: nat): Game
    requires id in g.tokens.players && id in g.tokens.ofId
  {
    var p := g.tokens.players[id];
    PutSession(g, p.mapId, AfterRemoveDog(SessionOf(g, p.mapId), p.dogId))
      .(tokens := WithoutPlayer(g.tokens, id),
        onMap := g.onMap[p.mapId := Get(g.onMap, p.mapId) - {id}],
        nameToId := g.nameToId - {p.name})
  }

  // ---------------------------------------------------------------------------------------------
  // Invariant

  /** The counters are ahead of every id ever handed out. */
  ghost predicate CountersInv(g: Game) {
    && (forall id :: id in g.tokens.players ==> id < g.nextPlayer)
    && (forall k :: k in g.sessions ==> IdsBelow(g.sessions[k], g.nextDog, g.nextLoot))
  }

  ghost predicate IdsBelow(s: Session, nextDog: nat, nextLoot: nat) {
    && (forall dog :: dog in s.dogs ==> dog < nextDog)
    && (forall dog :: dog in s.history.retired ==> dog < nextDog)
    && (forall loot :: loot in s.lost ==> loot < nextLoot)
    && (forall dog :: dog in s.dogs ==> BagBelow(s.dogs[dog].bag, nextLoot))
  }

  /** The objects in a bag have ids below the counter. */
  ghost predicate BagBelow(bag: Bag, nextLoot: nat) {
    forall i :: 0 <= i < |bag| && bag[i].Some? ==> bag[i].value.id < nextLoot
  }

  ghost predicate SessionsInv(g: Game) {
    && (forall k :: k in g.maps ==> g.maps[k].Valid() && g.maps[k].id == k)
    && (forall k :: k in g.sessions ==> k in g.maps && SessionInv(g.maps[k], g.sessions[k]))
  }

  ghost predicate GameInv(g: Game) {
    IndexInv(IndexOf(g)) && CountersInv(g) && SessionsInv(g)
  }

  lemma CountersAreFresh(g: Game)
    requires GameInv(g)
    ensures g.nextPlayer !in g.tokens.players && forall k :: k in g.sessions ==> g.nextDog !in g.sessions[k].dogs
    ensures forall n :: n in g.nameToId ==> g.nameToId[n] in g.tokens.ofId
  {
    hide SessionsInv, MapsInv, DogsInv;
    forall k | k in g.sessions ensures g.nextDog !in g.sessions[k].dogs {
      assert IdsBelow(g.sessions[k], g.nextDog, g.nextLoot);
    }
  }

  lemma NewGameInv(maps: map<MapId, GameMap>)
    requires forall k :: k in maps ==> maps[k].Valid() && maps[k].id == k
    ensures GameInv(NewGame(maps))
    ensures var g := NewGame(maps);
            && g.maps == maps && g.sessions == map[] && g.tokens.players == map[] && g.nameToId == map[]
            && g.nextPlayer == 0 && g.nextDog == 0 && g.nextLoot == 0
  {
  }

  // ---------------------------------------------------------------------------------------------
  // What each operation does to the index

  lemma PutSessionIndex(g: Game, k: MapId, s: Session)
    ensures DogNames(PutSession(g, k, s).sessions) == DogNames(g.sessions)[k := Names(s)]
  {
  }

  lemma {:induction false} AddLootsKeepsDogs(s: Session, loots: seq<Loot>)
    ensures AfterAddLoots(s, loots).dogs == s.dogs
    ensures AfterAddLoots(s, loots).history.retired == s.history.retired
  {
    if loots != [] {
      AddLootsKeepsDogs(s, loots[..|loots| - 1]);
    }
  }

  lemma AddDogNames(s: Session, d: DogState)
    ensures Names(AfterAddDog(s, d)) == Names(s)[d.id := d.name]
  {
  }

  lemma JoinIndex(g: Game, name: string, k: MapId, spawn: Vec, token: Token, loots: seq<Loot>)
    requires k in g.maps
    ensures IndexOf(AfterJoin(g, name, k, spawn, token, loots)) ==
            Joined(IndexOf(g), Player(g.nextPlayer, name, k, g.nextDog), token)
  {
    var dog := NewDog(g.nextDog, name, spawn, g.maps[k].bagCapacity);
    var s := AfterAddDog(SessionOf(g, k), dog);
    AddLootsKeepsDogs(s, loots);
    AddDogNames(SessionOf(g, k), dog);
    PutSessionIndex(g, k, AfterAddLoots(s, loots));
    assert Names(SessionOf(g, k)) == DogsOf(IndexOf(g), k);
    assert Names(AfterAddLoots(s, loots)) == Names(s);
  }

  lemma RetireIndex(g: Game, id: nat)
    requires id in g.tokens.players && id in g.tokens.ofId
    ensures IndexOf(AfterRetire(g, id)) == Retired(IndexOf(g), id)
  {
    var p := g.tokens.players[id];
    var s := SessionOf(g, p.mapId);
    PutSessionIndex(g, p.mapId, AfterRemoveDog(s, p.dogId));
    assert Names(AfterRemoveDog(s, p.dogId)) == DogsOf(IndexOf(g), p.mapId) - {p.dogId};
  }

  /** Replacing a session by one with the same dogs leaves the index as it is. */
  lemma SameNamesSameIndex(g: Game, k: MapId, s: Session)
    requires k in g.sessions && Names(s) == Names(g.sessions[k])
    ensures IndexOf(PutSession(g, k, s)) == IndexOf(g)
  {
  }

  // ---------------------------------------------------------------------------------------------
  // Every operation keeps the invariant

  lemma IdsBelowMore(s: Session, nextDog: nat, nextLoot: nat, moreDog: nat, moreLoot: nat)
    requires IdsBelow(s, nextDog, nextLoot) && moreDog >= nextDog && moreLoot >= nextLoot
    ensures IdsBelow(s, moreDog, moreLoot)
  {
  }

  lemma PutSessionKeepsCounters(g: Game, k: MapId, s: Session, nextDog: nat, nextLoot: nat)
    requires CountersInv(g) && IdsBelow(s, nextDog, nextLoot) && nextDog >= g.nextDog && nextLoot >= g.nextLoot
    ensures CountersInv(PutSession(g, k, s).(nextDog := nextDog, nextLoot := nextLoot))
  {
    hide IdsBelow;
    forall j | j in g.sessions ensures IdsBelow(g.sessions[j], nextDog, nextLoot) {
      IdsBelowMore(g.sessions[j], g.nextDog, g.nextLoot, nextDog, nextLoot);
    }
  }

  lemma PutSessionKeepsSessions(g: Game, k: MapId, s: Session)
    requires SessionsInv(g) && k in g.maps && SessionInv(g.maps[k], s)
    ensures SessionsInv(PutSession(g, k, s))
  {
    hide SessionInv, GameMap.Valid;
  }

  /** A game with one session exchanged keeps the invariant if the session and the index do. */
  lemma PutSessionKeepsInv(g: Game, k: MapId, s: Session, nextDog: nat, nextLoot: nat)
    requires GameInv(g) && k in g.maps && SessionInv(g.maps[k], s)
    requires IdsBelow(s, nextDog, nextLoot) && nextDog >= g.nextDog && nextLoot >= g.nextLoot
    ensures var h := PutSession(g, k, s).(nextDog := nextDog, nextLoot := nextLoot);
            CountersInv(h) && SessionsInv(h)
  {
    hide SessionInv, IdsBelow, IndexInv, GameMap.Valid;
    PutSessionKeepsCounters(g, k, s, nextDog, nextLoot);
    PutSessionKeepsSessions(g, k, s);
    hide CountersInv;
  }

  lemma AddLootKeepsInv(m: GameMap, s: Session, l: Loot)
    requires SessionInv(m, s) && LootKnown(l, m.lootValues)
    ensures SessionInv(m, AfterAddLoot(s, l))
  {
  }

  /** New objects with ids from the counter and known types. */
  ghost predicate NewLoots(m: GameMap, loots: seq<Loot>, first: nat) {
    FreshLoots(loots, first) && forall i :: 0 <= i < |loots| ==> LootKnown(loots[i], m.lootValues)
  }

  lemma {:induction false} AddLootsKeepsInv(m: GameMap, s: Session, loots: seq<Loot>, first: nat, nextDog: nat)
    requires SessionInv(m, s) && NewLoots(m, loots, first) && IdsBelow(s, nextDog, first)
    ensures SessionInv(m, AfterAddLoots(s, loots)) && IdsBelow(AfterAddLoots(s, loots), nextDog, first + |loots|)
  {
    hide SessionInv;
    if loots != [] {
      AddLootsKeepsInv(m, s, loots[..|loots| - 1], first, nextDog);
      AddLootKeepsInv(m, AfterAddLoots(s, loots[..|loots| - 1]), loots[|loots| - 1]);
    }
  }

  lemma AddNewDogKeepsInv(m: GameMap, s: Session, id: nat, name: string, spawn: Vec, nextLoot: nat)
    requires SessionInv(m, s) && IdsBelow(s, id, nextLoot)
    ensures var t := AfterAddDog(s, NewDog(id, name, spawn, m.bagCapacity));
            SessionInv(m, t) && IdsBelow(t, id + 1, nextLoot)
  {
  }

  lemma SessionOfInv(g: Game, k: MapId)
    requires GameInv(g) && k in g.maps
    ensures SessionInv(g.maps[k], SessionOf(g, k)) && IdsBelow(SessionOf(g, k), g.nextDog, g.nextLoot)
  {
  }

  /** Counters and ids: the newcomer is unknown to every index. */
  lemma NewcomerIsNew(g: Game, name: string, k: MapId, token: Token)
    requires GameInv(g) && name !in g.nameToId && token !in g.tokens.toId
    ensures New(IndexOf(g), Player(g.nextPlayer, name, k, g.nextDog), token)
  {
  }

  /** The joiner's session, with the new dog and the new objects. */
  function JoinedSession(g: Game, name: string, k: MapId, spawn: Vec, loots: seq<Loot>): Session
    requires k in g.maps
  {
    AfterAddLoots(AfterAddDog(SessionOf(g, k), NewDog(g.nextDog, name, spawn, g.maps[k].bagCapacity)), loots)
  }

  lemma JoinedSessionInv(g: Game, name: string, k: MapId, spawn: Vec, loots: seq<Loot>)
    requires GameInv(g) && k in g.maps && NewLoots(g.maps[k], loots, g.nextLoot)
    ensures SessionInv(g.maps[k], JoinedSession(g, name, k, spawn, loots))
    ensures IdsBelow(JoinedSession(g, name, k, spawn, loots), g.nextDog + 1, g.nextLoot + |loots|)
  {
    hide SessionInv, IndexInv;
    SessionOfInv(g, k);
    AddNewDogKeepsInv(g.maps[k], SessionOf(g, k), g.nextDog, name, spawn, g.nextLoot);
    AddLootsKeepsInv(g.maps[k], JoinedSession(g, name, k, spawn, []), loots, g.nextLoot, g.nextDog + 1);
  }

  lemma JoinKeepsSessions(g: Game, name: string, k: MapId, spawn: Vec, token: Token, loots: seq<Loot>)
    requires GameInv(g) && k in g.maps && NewLoots(g.maps[k], loots, g.nextLoot)
    ensures CountersInv(AfterJoin(g, name, k, spawn, token, loots))
    ensures SessionsInv(AfterJoin(g, name, k, spawn, token, loots))
  {
    hide SessionInv, IndexInv, AfterAddLoots, AfterAddDog, IdsBelow;
    JoinedSessionInv(g, name, k, spawn, loots);
    PutSessionKeepsInv(g, k, JoinedSession(g, name, k, spawn, loots), g.nextDog + 1, g.nextLoot + |loots|);
  }

  /** New objects of different ids are all there afterwards, and the ones before them too. */
  lemma {:induction false} AddedLootsAreThere(s: Session, loots: seq<Loot>, first: nat, id: nat)
    requires FreshLoots(loots, first) && forall i :: i in s.lost ==> i < first
    ensures var t := AfterAddLoots(s, loots);
            && (id in t.lost <==> id in s.lost || first <= id < first + |loots|)
            && (id in s.lost ==> t.lost[id] == s.lost[id])
            && (first <= id < first + |loots| ==> t.lost[id] == loots[id - first])
  {
    if loots != [] {
      AddedLootsAreThere(s, loots[..|loots| - 1], first, id);
    }
  }

  /** What the session of a newcomer has afterwards. */
  ghost predicate WithNewcomer(s: Session, t: Session, dog: nat, loots: seq<Loot>, first: nat) {
    && t.dogs.Keys == s.dogs.Keys + {dog}
    && (forall d :: d in s.dogs ==> t.dogs[d] == s.dogs[d])
    && (forall id :: id in t.lost <==> id in s.lost || first <= id < first + |loots|)
    && (forall id :: id in s.lost ==> t.lost[id] == s.lost[id])
    && (forall id :: first <= id < first + |loots| ==> t.lost[id] == loots[id - first])
  }

  lemma NewcomerInSession(s: Session, d: DogState, loots: seq<Loot>, first: nat)
    requires d.id !in s.dogs && FreshLoots(loots, first) && forall i :: i in s.lost ==> i < first
    ensures WithNewcomer(s, AfterAddLoots(AfterAddDog(s, d), loots), d.id, loots, first)
  {
    var t := AfterAddDog(s, d);
    AddLootsKeepsDogs(t, loots);
    forall id: nat
      ensures id in AfterAddLoots(t, loots).lost <==> id in s.lost || first <= id < first + |loots|
      ensures id in s.lost ==> AfterAddLoots(t, loots).lost[id] == s.lost[id]
      ensures first <= id < first + |loots| ==> AfterAddLoots(t, loots).lost[id] == loots[id - first]
    {
      AddedLootsAreThere(t, loots, first, id);
    }
    hide AfterAddLoots;
  }

  /** Who joins is a player under the next id with the next dog, on the map joined and under the name and the token
      given; the counters go up by one, one and the number of the new objects, and the other sessions stay. */
  lemma JoinBringsPlayer(g: Game, name: string, k: MapId, spawn: Vec, token: Token, loots: seq<Loot>)
    requires GameInv(g) && k in g.maps && name !in g.nameToId && token !in g.tokens.toId
    requires FreshLoots(loots, g.nextLoot)
    ensures var h := AfterJoin(g, name, k, spawn, token, loots);
            && h.maps == g.maps && h.nameToId == g.nameToId[name := g.nextPlayer]
            && h.tokens.players == g.tokens.players[g.nextPlayer := Player(g.nextPlayer, name, k, g.nextDog)]
            && h.tokens.toId == g.tokens.toId[token := g.nextPlayer]
            && h.tokens.ofId == g.tokens.ofId[g.nextPlayer := token]
            && h.nextPlayer == g.nextPlayer + 1 && h.nextDog == g.nextDog + 1 && h.nextLoot == g.nextLoot + |loots|
            && k in h.sessions && h.sessions == g.sessions[k := h.sessions[k]]
            && WithNewcomer(SessionOf(g, k), h.sessions[k], g.nextDog, loots, g.nextLoot)
  {
    SessionOfInv(g, k);
    NoTokenYet(g);
    hide GameInv, AfterAddLoots, AfterAddDog, FreshLoots, WithNewcomer, SessionInv;
    NewcomerInSession(SessionOf(g, k), NewDog(g.nextDog, name, spawn, g.maps[k].bagCapacity), loots, g.nextLoot);
  }

  lemma NoTokenYet(g: Game)
    requires GameInv(g)
    ensures g.nextPlayer !in g.tokens.ofId && forall k :: k in g.sessions ==> g.nextDog !in g.sessions[k].dogs
  {
    CountersAreFresh(g);
  }

  lemma JoinKeepsInv(g: Game, name: string, k: MapId, spawn: Vec, token: Token, loots: seq<Loot>)
    requires GameInv(g) && k in g.maps && name !in g.nameToId && token !in g.tokens.toId
    requires NewLoots(g.maps[k], loots, g.nextLoot)
    ensures GameInv(AfterJoin(g, name, k, spawn, token, loots))
  {
    hide SessionsInv, CountersInv, IndexInv, AfterJoin, Joined;
    JoinKeepsSessions(g, name, k, spawn, token, loots);
    NewcomerIsNew(g, name, k, token);
    JoinIndex(g, name, k, spawn, token, loots);
    JoinKeepsIndex(IndexOf(g), Player(g.nextPlayer, name, k, g.nextDog), token);
  }

  lemma NewLootKeepsSessions(g: Game, k: MapId, loots: seq<Loot>)
    requires GameInv(g) && k in g.sessions && k in g.maps && NewLoots(g.maps[k], loots, g.nextLoot)
    ensures CountersInv(AfterNewLoot(g, k, loots)) && SessionsInv(AfterNewLoot(g, k, loots))
  {
    hide GameInv, SessionInv, CountersInv, SessionsInv, IdsBelow, NewLoots, AfterAddLoots;
    SessionOfInv(g, k);
    AddLootsKeepsInv(g.maps[k], g.sessions[k], loots, g.nextLoot, g.nextDog);
    PutSessionKeepsInv(g, k, AfterAddLoots(g.sessions[k], loots), g.nextDog, g.nextLoot + |loots|);
  }

  lemma NewLootKeepsIndex(g: Game, k: MapId, loots: seq<Loot>)
    requires k in g.sessions
    ensures IndexOf(AfterNewLoot(g, k, loots)) == IndexOf(g)
  {
    AddLootsKeepsDogs(g.sessions[k], loots);
    hide AfterAddLoots;
    assert Names(AfterAddLoots(g.sessions[k], loots)) == Names(g.sessions[k]);
    SameNamesSameIndex(g, k, AfterAddLoots(g.sessions[k], loots));
  }

  lemma NewLootKeepsInv(g: Game, k: MapId, loots: seq<Loot>)
    requires GameInv(g) && k in g.sessions && NewLoots(g.maps[k], loots, g.nextLoot)
    ensures GameInv(AfterNewLoot(g, k, loots))
  {
    assert k in g.maps;
    hide CountersInv, SessionsInv, IndexInv, AfterNewLoot, NewLoots;
    NewLootKeepsSessions(g, k, loots);
    NewLootKeepsIndex(g, k, loots);
  }

  lemma SteerKeepsInv(m: GameMap, s: Session, dog: nat, direction: string)
    requires SessionInv(m, s) && dog in s.dogs
    ensures SessionInv(m, AfterSteer(s, dog, direction, m.dogSpeed))
    ensures Names(AfterSteer(s, dog, direction, m.dogSpeed)) == Names(s)
  {
  }

  lemma PlayersHaveDogs(g: Game, id: nat)
    requires GameInv(g) && id in g.tokens.players
    ensures id in g.tokens.ofId
    ensures var p := g.tokens.players[id];
            p.id == id && p.mapId in g.sessions && p.mapId in g.maps && p.dogId in g.sessions[p.mapId].dogs
            && g.sessions[p.mapId].dogs[p.dogId].name == p.name
  {
    assert HasDog(g.tokens.players[id], IndexOf(g).dogNames);
  }

  function AfterOrder(g: Game, id: nat, direction: string): Game
    requires id in g.tokens.players
    requires var p := g.tokens.players[id];
             p.mapId in g.maps && p.mapId in g.sessions && p.dogId in g.sessions[p.mapId].dogs
  {
    var p := g.tokens.players[id];
    PutSession(g, p.mapId, AfterSteer(g.sessions[p.mapId], p.dogId, direction, g.maps[p.mapId].dogSpeed))
  }

  /** An order gives the player's dog its direction and the speed of the map along that axis, upwards being the
      negative y, and restarts the idle clock; an unknown direction changes nothing. */
  lemma OrderIsObeyed(g: Game, id: nat, direction: string)
    requires id in g.tokens.players
    requires var p := g.tokens.players[id];
             p.mapId in g.maps && p.mapId in g.sessions && p.dogId in g.sessions[p.mapId].dogs
    ensures var p, h := g.tokens.players[id], AfterOrder(g, id, direction);
            var s, v := g.sessions[p.mapId], g.maps[p.mapId].dogSpeed;
            var d := s.dogs[p.dogId];
            h == g.(sessions := g.sessions[p.mapId := s.(dogs := s.dogs[p.dogId :=
                if direction == "" then d.(direction := "", speed := Vec(0.0, 0.0), afkTime := 0)
                else if direction == "L" then d.(direction := "L", speed := Vec(-v, 0.0), afkTime := 0)
                else if direction == "R" then d.(direction := "R", speed := Vec(v, 0.0), afkTime := 0)
                else if direction == "U" then d.(direction := "U", speed := Vec(0.0, -v), afkTime := 0)
                else if direction == "D" then d.(direction := "D", speed := Vec(0.0, v), afkTime := 0)
                else d])])
  {
    KnownDirections(direction);
    hide ValidDirection;
    var p := g.tokens.players[id];
    assert g.sessions[p.mapId].dogs[p.dogId := g.sessions[p.mapId].dogs[p.dogId]] == g.sessions[p.mapId].dogs;
  }

  lemma OrderKeepsInv(g: Game, id: nat, direction: string)
    requires GameInv(g) && id in g.tokens.players
    requires var p := g.tokens.players[id];
             p.mapId in g.maps && p.mapId in g.sessions && p.dogId in g.sessions[p.mapId].dogs
    ensures GameInv(AfterOrder(g, id, direction))
  {
    hide SessionInv, IndexInv;
    var p := g.tokens.players[id];
    var s := g.sessions[p.mapId];
    var t := AfterSteer(s, p.dogId, direction, g.maps[p.mapId].dogSpeed);
    SessionOfInv(g, p.mapId);
    SteerKeepsInv(g.maps[p.mapId], s, p.dogId, direction);
    PutSessionKeepsInv(g, p.mapId, t, g.nextDog, g.nextLoot);
    SameNamesSameIndex(g, p.mapId, t);
  }

  lemma RemoveDogKeepsInv(m: GameMap, s: Session, dog: nat, nextDog: nat, nextLoot: nat)
    requires SessionInv(m, s) && IdsBelow(s, nextDog, nextLoot)
    ensures SessionInv(m, AfterRemoveDog(s, dog)) && IdsBelow(AfterRemoveDog(s, dog), nextDog, nextLoot)
  {
  }

  lemma RetireKeepsSessions(g: Game, id: nat)
    requires GameInv(g) && id in g.tokens.players && id in g.tokens.ofId
    ensures CountersInv(AfterRetire(g, id)) && SessionsInv(AfterRetire(g, id))
  {
    hide SessionInv, IndexInv, IdsBelow, AfterRemoveDog;
    PlayersHaveDogs(g, id);
    var p := g.tokens.players[id];
    SessionOfInv(g, p.mapId);
    RemoveDogKeepsInv(g.maps[p.mapId], g.sessions[p.mapId], p.dogId, g.nextDog, g.nextLoot);
    PutSessionKeepsInv(g, p.mapId, AfterRemoveDog(g.sessions[p.mapId], p.dogId), g.nextDog, g.nextLoot);
  }

  lemma RetireKeepsInv(g: Game, id: nat)
    requires GameInv(g) && id in g.tokens.players && id in g.tokens.ofId
    ensures GameInv(AfterRetire(g, id))
  {
    hide SessionsInv, CountersInv, IndexInv, AfterRetire, Retired;
    RetireKeepsSessions(g, id);
    RetireIndex(g, id);
    RetireKeepsIndex(IndexOf(g), id);
  }

  // ---------------------------------------------------------------------------------------------
  // Ticks

  /** A hit moves objects of the session about, so that their ids stay below the counter. */
  lemma HitKeepsBelow(values: seq<nat>, s: Session, h: Hit, nextDog: nat, nextLoot: nat)
    requires h.dog in s.dogs && IdsBelow(s, nextDog, nextLoot) && AfterHit(values, s, h).Fine?
    requires forall id :: id in s.lost ==> s.lost[id].id == id
    ensures var t := AfterHit(values, s, h).s;
            IdsBelow(t, nextDog, nextLoot) && forall id :: id in t.lost ==> t.lost[id].id == id
  {
    assert BagBelow(s.dogs[h.dog].bag, nextLoot);
  }

  lemma {:induction false} ReplayKeepsBelow(values: seq<nat>, s: Session, hits: seq<Hit>, nextDog: nat, nextLoot: nat)
    requires DogsPresent(s, hits) && IdsBelow(s, nextDog, nextLoot) && Replay(values, s, hits).Fine?
    requires forall id :: id in s.lost ==> s.lost[id].id == id
    ensures var t := Replay(values, s, hits).s;
            IdsBelow(t, nextDog, nextLoot) && forall id :: id in t.lost ==> t.lost[id].id == id
  {
    if hits != [] {
      hide IdsBelow, AfterHit;
      ReplayKeepsBelow(values, s, hits[..|hits| - 1], nextDog, nextLoot);
      HitKeepsBelow(values, Replay(values, s, hits[..|hits| - 1]).s, hits[|hits| - 1], nextDog, nextLoot);
    }
  }

  lemma MovedKeepsBelow(m: GameMap, s: Session, deltaMs: nat, nextDog: nat, nextLoot: nat)
    requires IdsBelow(s, nextDog, nextLoot)
    ensures IdsBelow(Moved(m, s, deltaMs), nextDog, nextLoot)
  {
    hide Advanced, BagBelow;
    forall id | id in s.dogs ensures Advanced(m.roads, s.dogs[id], deltaMs).bag == s.dogs[id].bag {
      AdvancedKeepsRest(m.roads, s.dogs[id], deltaMs);
    }
  }

  lemma LostUnderIds(m: GameMap, s: Session)
    requires SessionInv(m, s)
    ensures forall id :: id in s.lost ==> s.lost[id].id == id
  {
  }

  lemma OneTickKeepsInv(m: GameMap, s: Session, deltaMs: nat, hits: seq<Hit>, nextDog: nat, nextLoot: nat)
    requires SessionInv(m, s) && m.Valid() && TickIsFine(m, s, deltaMs, hits) && IdsBelow(s, nextDog, nextLoot)
    ensures var t := AfterTick(m, s, deltaMs, hits).s;
            SessionInv(m, t) && Names(t) == Names(s) && IdsBelow(t, nextDog, nextLoot)
  {
    hide Advanced, Replay, SessionInv, AreHits, IdsBelow;
    var t := AfterTick(m, s, deltaMs, hits).s;
    MovedKeepsInv(m, s, deltaMs);
    ReplayKeepsInv(m, Moved(m, s, deltaMs), hits);
    MovedKeepsBelow(m, s, deltaMs, nextDog, nextLoot);
    LostUnderIds(m, Moved(m, s, deltaMs));
    ReplayKeepsBelow(m.lootValues, Moved(m, s, deltaMs), hits, nextDog, nextLoot);
    forall id | id in s.dogs ensures t.dogs[id].name == s.dogs[id].name {
      TickAdvancesDogs(m, s, deltaMs, hits, id);
      AdvancedKeepsRest(m.roads, s.dogs[id], deltaMs);
    }
    assert t.dogs.Keys == s.dogs.Keys;
    assert Names(t) == Names(s);
  }

  lemma SessionTickKeepsInv(g: Game, deltaMs: nat, hits: map<MapId, seq<Hit>>, k: MapId)
    requires GameInv(g) && TicksAreFine(g, deltaMs, hits) && k in g.sessions
    ensures var t := AfterTicks(g, deltaMs, hits).sessions[k];
            SessionInv(g.maps[k], t) && Names(t) == Names(g.sessions[k]) && IdsBelow(t, g.nextDog, g.nextLoot)
  {
    assert SessionInv(g.maps[k], g.sessions[k]) && g.maps[k].Valid() && IdsBelow(g.sessions[k], g.nextDog, g.nextLoot);
    hide GameInv, SessionInv, AfterTick, TickIsFine, IdsBelow;
    TickIsAfterTick(g, deltaMs, hits, k);
    OneTickKeepsInv(g.maps[k], g.sessions[k], deltaMs, hits[k], g.nextDog, g.nextLoot);
  }

  /** Sessions that keep their own invariant and the names of their dogs keep that of the game. */
  lemma SessionsKeepInv(g: Game, sessions: map<MapId, Session>)
    requires GameInv(g) && sessions.Keys == g.sessions.Keys
    requires forall k :: k in sessions && k in g.maps ==> SessionInv(g.maps[k], sessions[k])
    requires forall k :: k in sessions ==>
        Names(sessions[k]) == Names(g.sessions[k]) && IdsBelow(sessions[k], g.nextDog, g.nextLoot)
    ensures GameInv(g.(sessions := sessions)) && IndexOf(g.(sessions := sessions)) == IndexOf(g)
  {
    hide SessionInv, IndexInv, IdsBelow, Names;
    assert DogNames(sessions) == DogNames(g.sessions);
  }

  lemma TicksChangeSessions(g: Game, deltaMs: nat, hits: map<MapId, seq<Hit>>)
    requires TicksAreFine(g, deltaMs, hits)
    ensures var h := AfterTicks(g, deltaMs, hits);
            h == g.(sessions := h.sessions) && h.sessions.Keys == g.sessions.Keys
  {
  }

  lemma TicksKeepInv(g: Game, deltaMs: nat, hits: map<MapId, seq<Hit>>)
    requires GameInv(g) && TicksAreFine(g, deltaMs, hits)
    ensures GameInv(AfterTicks(g, deltaMs, hits)) && IndexOf(AfterTicks(g, deltaMs, hits)) == IndexOf(g)
  {
    TicksChangeSessions(g, deltaMs, hits);
    var h := AfterTicks(g, deltaMs, hits);
    hide GameInv, SessionInv, AfterTicks, TicksAreFine, IdsBelow, Names, IndexOf;
    forall k | k in g.sessions
      ensures k in g.maps ==> SessionInv(g.maps[k], h.sessions[k])
      ensures Names(h.sessions[k]) == Names(g.sessions[k]) && IdsBelow(h.sessions[k], g.nextDog, g.nextLoot)
    {
      SessionTickKeepsInv(g, deltaMs, hits, k);
    }
    SessionsKeepInv(g, h.sessions);
  }

  lemma TickIsAfterTick(g: Game, deltaMs: nat, hits: map<MapId, seq<Hit>>, k: MapId)
    requires TicksAreFine(g, deltaMs, hits) && k in g.sessions
    ensures TickIsFine(g.maps[k], g.sessions[k], deltaMs, hits[k])
    ensures AfterTicks(g, deltaMs, hits).sessions[k] == AfterTick(g.maps[k], g.sessions[k], deltaMs, hits[k]).s
  {
  }
}
