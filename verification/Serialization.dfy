/**
  What is saved of a game, and what restoring makes of it.  A saved game is a value; the order in which sessions,
  lost objects and players are written or read back is left open.
 */
module Serialization {
  import opened Wrappers
  import opened Geometry
  import opened RoadMap
  import opened Dogs
  import opened SessionModel
  import opened Registry
  import opened GameModel
  import opened GameRuns

  datatype LootRepr = LootRepr(id: nat, position: Vec, lootType: nat)

  datatype DogRepr = DogRepr(
    id: nat,
    name: string,
    position: Vec,
    bagCapacity: nat,
    speed: Vec,
    direction: string,
    score: nat,
    bag: seq<LootRepr>)

  datatype PlayerRepr = PlayerRepr(id: nat, name: string, mapId: MapId, dog: DogRepr)

  datatype TokensRepr = TokensRepr(players: map<nat, PlayerRepr>, tokens: map<nat, Token>)

  datatype SessionRepr = SessionRepr(mapId: MapId, lost: seq<LootRepr>)

  datatype GameRepr = GameRepr(tokens: TokensRepr, sessions: seq<SessionRepr>)

  datatype RestoreError = InvalidDirection | MapNotFound | NoToken

  // ---------------------------------------------------------------------------------------------
  // Objects and dogs

  function SaveLoot(l: Loot): LootRepr { LootRepr(l.id, l.position, l.lootType) }

  function RestoreLoot(r: LootRepr): Loot { Loot(r.id, r.position, r.lootType) }

  function RestoredLoots(rs: seq<LootRepr>): seq<Loot> {
    seq(|rs|, i requires 0 <= i < |rs| => RestoreLoot(rs[i]))
  }

  function SaveBag(bag: Bag): seq<LootRepr>
    requires NoPhantom(bag)
  {
    seq(|bag|, i requires 0 <= i < |bag| => SaveLoot(bag[i].value))
  }

  /** None is the access through an empty slot. */
  ghost function SaveDog(d: DogState): Option<DogRepr> {
    if NoPhantom(d.bag)
    then Some(DogRepr(d.id, d.name, d.position, d.bagCapacity, d.speed, d.direction, d.score, SaveBag(d.bag)))
    else None
  }

  function CollectAll(d: DogState, bag: seq<LootRepr>): DogState {
    if bag == [] then d else Collected(CollectAll(d, bag[..|bag| - 1]), Some(RestoreLoot(bag[|bag| - 1])))
  }

  /** A new dog, set up through its setters; what does not fit in the bag is dropped silently. */
  function RestoreDog(r: DogRepr): Result<DogState, RestoreError> {
    if !ValidDirection(r.direction) then Err(InvalidDirection)
    else Ok(CollectAll(NewDog(r.id, r.name, r.position, r.bagCapacity)
                         .(speed := r.speed, direction := r.direction, score := r.score), r.bag))
  }

  function Full(bag: seq<LootRepr>): Bag {
    seq(|bag|, i requires 0 <= i < |bag| => Some(RestoreLoot(bag[i])))
  }

  lemma {:induction false} CollectAllFills(d: DogState, bag: seq<LootRepr>)
    requires d.bag == []
    ensures CollectAll(d, bag) == d.(bag := Full(bag)[..if |bag| <= d.bagCapacity then |bag| else d.bagCapacity])
  {
    if bag != [] {
      var front := bag[..|bag| - 1];
      CollectAllFills(d, front);
      assert Full(bag) == Full(front) + [Some(RestoreLoot(bag[|bag| - 1]))];
    }
  }

  lemma RestoredDogKeepsId(r: DogRepr)
    requires RestoreDog(r).Ok?
    ensures RestoreDog(r).value.id == r.id
  {
    CollectAllFills(NewDog(r.id, r.name, r.position, r.bagCapacity)
                      .(speed := r.speed, direction := r.direction, score := r.score), r.bag);
  }

  /** What a saved and restored dog is like: its clocks and its gatherer start anew. */
  function Rested(d: DogState): DogState {
    d.(afkTime := 0, liveTime := 0, gatherer := NewDog(d.id, d.name, d.position, d.bagCapacity).gatherer)
  }

  lemma FullSave(bag: Bag)
    requires NoPhantom(bag)
    ensures Full(SaveBag(bag)) == bag
  {
  }

  /** A dog comes back as it was, but for clocks and gatherer, exactly when its bag has no empty slot and no
      more objects than it has room for, and its direction is one of the known ones. */
  lemma DogRoundTripIff(d: DogState)
    ensures SaveDog(d).Some? && RestoreDog(SaveDog(d).value) == Ok(Rested(d))
            <==> NoPhantom(d.bag) && |d.bag| <= d.bagCapacity && ValidDirection(d.direction)
  {
    if NoPhantom(d.bag) {
      var r := SaveDog(d).value;
      CollectAllFills(NewDog(r.id, r.name, r.position, r.bagCapacity)
                        .(speed := r.speed, direction := r.direction, score := r.score), r.bag);
      FullSave(d.bag);
      assert d.bag[..|d.bag|] == d.bag;
    }
  }

  // ---------------------------------------------------------------------------------------------
  // Saving

  /** Every lost object once, in any order. */
  ghost predicate LostList(rs: seq<LootRepr>, lost: map<nat, Loot>) {
    && Enumerates(seq(|rs|, i requires 0 <= i < |rs| => rs[i].id), lost)
    && forall i :: 0 <= i < |rs| ==> rs[i].id in lost && rs[i] == SaveLoot(lost[rs[i].id])
  }

  function MapIds(rs: seq<SessionRepr>): set<MapId> {
    set i | 0 <= i < |rs| :: rs[i].mapId
  }

  /** Every session once, in any order. */
  ghost predicate SessionList(rs: seq<SessionRepr>, sessions: map<MapId, Session>) {
    && sessions.Keys == MapIds(rs)
    && (forall i, j :: 0 <= i < j < |rs| ==> rs[i].mapId != rs[j].mapId)
    && (forall i :: 0 <= i < |rs| ==> rs[i].mapId in sessions && LostList(rs[i].lost, sessions[rs[i].mapId].lost))
  }

  ghost predicate IsPlayerSave(r: PlayerRepr, p: Player, d: DogState) {
    r.id == p.id && r.name == p.name && r.mapId == p.mapId && SaveDog(d) == Some(r.dog)
  }

  /** What may be written for a game. */
  ghost predicate IsSaveOf(r: GameRepr, g: Game) {
    && r.tokens.tokens == g.tokens.ofId
    && r.tokens.players.Keys == g.tokens.players.Keys
    && (forall id :: id in g.tokens.players ==>
      HasPlace(g, id) && IsPlayerSave(r.tokens.players[id], g.tokens.players[id], DogOf(g, id)))
    && SessionList(r.sessions, g.sessions)
  }

  // ---------------------------------------------------------------------------------------------
  // Restoring

  /** The constructors with an id push the common counter past it. */
  function Bump(next: nat, id: nat): nat { if next <= id then id + 1 else next }

  function BumpAll(next: nat, rs: seq<LootRepr>): nat {
    if rs == [] then next else Bump(BumpAll(next, rs[..|rs| - 1]), rs[|rs| - 1].id)
  }

  function RestoreSession(g: Game, r: SessionRepr): Result<Game, RestoreError> {
    if r.mapId !in g.maps then Err(MapNotFound)
    else Ok(PutSession(g, r.mapId, AfterAddLoots(SessionOf(g, r.mapId), RestoredLoots(r.lost)))
              .(nextLoot := BumpAll(g.nextLoot, r.lost)))
  }

  function RestoreSessions(g: Game, rs: seq<SessionRepr>): Result<Game, RestoreError> {
    if rs == [] then Ok(g)
    else
      match RestoreSessions(g, rs[..|rs| - 1])
      case Err(e) => Err(e)
      case Ok(h) => RestoreSession(h, rs[|rs| - 1])
  }

  /** A dog joins its session, and its player the indexes. */
  function Readmitted(g: Game, r: PlayerRepr, token: Token, d: DogState): Game {
    Filed(PutSession(g, r.mapId, AfterAddDog(SessionOf(g, r.mapId), d)), Player(r.id, r.name, r.mapId, d.id), token)
      .(nextPlayer := Bump(g.nextPlayer, r.id), nextDog := Bump(g.nextDog, d.id),
         nextLoot := BumpAll(g.nextLoot, r.dog.bag))
  }

  function RestorePlayer(g: Game, id: nat, rs: TokensRepr): Result<Game, RestoreError>
    requires id in rs.players
  {
    var r := rs.players[id];
    if id !in rs.tokens then Err(NoToken)
    else if r.mapId !in g.maps then Err(MapNotFound)
    else
      match RestoreDog(r.dog)
      case Err(e) => Err(e)
      case Ok(d) => Ok(Readmitted(g, r, rs.tokens[id], d))
  }

  /** The players, in the order of `ids`. */
  function RestorePlayers(g: Game, ids: seq<nat>, rs: TokensRepr): Result<Game, RestoreError>
    requires forall id :: id in ids ==> id in rs.players
  {
    if ids == [] then Ok(g)
    else
      match RestorePlayers(g, ids[..|ids| - 1], rs)
      case Err(e) => Err(e)
      case Ok(h) => assert ids[|ids| - 1] in ids; RestorePlayer(h, ids[|ids| - 1], rs)
  }

  function RestoreGame(g: Game, r: GameRepr, ids: seq<nat>): Result<Game, RestoreError>
    requires forall id :: id in ids ==> id in r.tokens.players
  {
    match RestoreSessions(g, r.sessions)
    case Err(e) => Err(e)
    case Ok(h) => RestorePlayers(h, ids, r.tokens)
  }

  /** No two saved players share a dog. */
  ghost predicate DogsDiffer(rs: TokensRepr) {
    forall i, j :: i in rs.players && j in rs.players && i != j ==> rs.players[i].dog.id != rs.players[j].dog.id
  }

  // ---------------------------------------------------------------------------------------------
  // Where the counters go on

  /** The counter is where it was, or goes on after one of these ids. */
  ghost predicate GoesOn(before: nat, after: nat, ids: set<nat>) { after == before || (after > 0 && after - 1 in ids) }

  function LootIds(rs: seq<LootRepr>): set<nat> { set i | 0 <= i < |rs| :: rs[i].id }

  lemma {:induction false} BumpedGoesOn(next: nat, rs: seq<LootRepr>)
    ensures GoesOn(next, BumpAll(next, rs), LootIds(rs))
    ensures BumpAll(next, rs) >= next && forall id :: id in LootIds(rs) ==> id < BumpAll(next, rs)
  {
    if rs != [] {
      var front, last := rs[..|rs| - 1], rs[|rs| - 1];
      BumpedGoesOn(next, front);
      assert LootIds(rs) == LootIds(front) + {last.id};
    }
  }

  function SavedLost(rs: seq<SessionRepr>): set<nat> {
    set i, j | 0 <= i < |rs| && 0 <= j < |rs[i].lost| :: rs[i].lost[j].id
  }

  function SavedPlayers(rs: TokensRepr, ids: set<nat>): set<nat>
    requires ids <= rs.players.Keys
  {
    set id | id in ids :: rs.players[id].id
  }

  function SavedDogs(rs: TokensRepr, ids: set<nat>): set<nat>
    requires ids <= rs.players.Keys
  {
    set id | id in ids :: rs.players[id].dog.id
  }

  function SavedBags(rs: TokensRepr, ids: set<nat>): set<nat>
    requires ids <= rs.players.Keys
  {
    set id, j | id in ids && 0 <= j < |rs.players[id].dog.bag| :: rs.players[id].dog.bag[j].id
  }

  lemma {:induction false} SessionCounters(g: Game, rs: seq<SessionRepr>)
    requires RestoreSessions(g, rs).Ok?
    ensures var h := RestoreSessions(g, rs).value;
            && h.nextPlayer == g.nextPlayer && h.nextDog == g.nextDog
            && GoesOn(g.nextLoot, h.nextLoot, SavedLost(rs))
  {
    if rs != [] {
      var front, last := rs[..|rs| - 1], rs[|rs| - 1];
      SessionCounters(g, front);
      BumpedGoesOn(RestoreSessions(g, front).value.nextLoot, last.lost);
      assert forall id :: id in SavedLost(front) || id in LootIds(last.lost) ==> id in SavedLost(rs);
    }
  }

  lemma PlayerCounters(g: Game, id: nat, rs: TokensRepr)
    requires id in rs.players && RestorePlayer(g, id, rs).Ok?
    ensures var h := RestorePlayer(g, id, rs).value;
            && GoesOn(g.nextPlayer, h.nextPlayer, SavedPlayers(rs, {id}))
            && GoesOn(g.nextDog, h.nextDog, SavedDogs(rs, {id}))
            && GoesOn(g.nextLoot, h.nextLoot, SavedBags(rs, {id}))
  {
    RestoredDogKeepsId(rs.players[id].dog);
    BumpedGoesOn(g.nextLoot, rs.players[id].dog.bag);
    hide RestoreDog;
  }

  function IdSet(ids: seq<nat>): set<nat> { set id | id in ids }

  lemma {:induction false} PlayersCounters(g: Game, ids: seq<nat>, rs: TokensRepr)
    requires (forall id :: id in ids ==> id in rs.players) && RestorePlayers(g, ids, rs).Ok?
    ensures var h, done := RestorePlayers(g, ids, rs).value, IdSet(ids);
            && GoesOn(g.nextPlayer, h.nextPlayer, SavedPlayers(rs, done))
            && GoesOn(g.nextDog, h.nextDog, SavedDogs(rs, done))
            && GoesOn(g.nextLoot, h.nextLoot, SavedBags(rs, done))
  {
    hide RestorePlayer;
    if ids != [] {
      PlayersCounters(g, ids[..|ids| - 1], rs);
      PlayerCounters(RestorePlayers(g, ids[..|ids| - 1], rs).value, ids[|ids| - 1], rs);
    }
  }

  /** After restoring into a new game the counters go on right after the largest of the saved ids. */
  lemma CountersGoOn(maps: map<MapId, GameMap>, r: GameRepr, ids: seq<nat>)
    requires Enumerates(ids, r.tokens.players) && RestoreGame(NewGame(maps), r, ids).Ok?
    ensures var h, all := RestoreGame(NewGame(maps), r, ids).value, r.tokens.players.Keys;
            && GoesOn(0, h.nextPlayer, SavedPlayers(r.tokens, all))
            && GoesOn(0, h.nextDog, SavedDogs(r.tokens, all))
            && GoesOn(0, h.nextLoot, SavedLost(r.sessions) + SavedBags(r.tokens, all))
  {
    hide RestoreSessions, RestorePlayers, SavedLost, SavedPlayers, SavedDogs, SavedBags;
    SessionCounters(NewGame(maps), r.sessions);
    PlayersCounters(RestoreSessions(NewGame(maps), r.sessions).value, ids, r.tokens);
    assert IdSet(ids) == r.tokens.players.Keys;
  }

  // ---------------------------------------------------------------------------------------------
  // When restoring succeeds

  ghost predicate Restorable(maps: map<MapId, GameMap>, r: GameRepr) {
    && (forall i :: 0 <= i < |r.sessions| ==> r.sessions[i].mapId in maps)
    && (forall id :: id in r.tokens.players ==> PlayerRestorable(maps, r.tokens, id))
  }

  ghost predicate PlayerRestorable(maps: map<MapId, GameMap>, rs: TokensRepr, id: nat) {
    && id in rs.players && id in rs.tokens
    && rs.players[id].mapId in maps && ValidDirection(rs.players[id].dog.direction)
  }

  lemma {:induction false} SessionsRestoreIff(g: Game, rs: seq<SessionRepr>)
    ensures RestoreSessions(g, rs).Ok? <==> forall i :: 0 <= i < |rs| ==> rs[i].mapId in g.maps
    ensures RestoreSessions(g, rs).Ok? ==> RestoreSessions(g, rs).value.maps == g.maps
  {
    if rs != [] {
      var front := rs[..|rs| - 1];
      SessionsRestoreIff(g, front);
      assert forall i :: 0 <= i < |front| ==> front[i] == rs[i];
    }
  }

  lemma RestorePlayerIff(g: Game, id: nat, rs: TokensRepr)
    requires id in rs.players
    ensures RestorePlayer(g, id, rs).Ok? <==> PlayerRestorable(g.maps, rs, id)
    ensures RestorePlayer(g, id, rs).Ok? ==> RestorePlayer(g, id, rs).value.maps == g.maps
  {
  }

  lemma {:induction false} PlayersRestoreIff(g: Game, ids: seq<nat>, rs: TokensRepr)
    requires forall id :: id in ids ==> id in rs.players
    ensures RestorePlayers(g, ids, rs).Ok? <==> forall id :: id in ids ==> PlayerRestorable(g.maps, rs, id)
    ensures RestorePlayers(g, ids, rs).Ok? ==> RestorePlayers(g, ids, rs).value.maps == g.maps
  {
    hide PlayerRestorable, RestorePlayer;
    if ids != [] {
      var front := ids[..|ids| - 1];
      var last := ids[|ids| - 1];
      PlayersRestoreIff(g, front, rs);
      assert forall id :: id in ids <==> id in front || id == last;
      if RestorePlayers(g, front, rs).Ok? {
        RestorePlayerIff(RestorePlayers(g, front, rs).value, last, rs);
      }
    }
  }

  /** Restoring fails exactly on an unknown map, a player without a token or an unknown direction. */
  lemma RestoresIff(g: Game, r: GameRepr, ids: seq<nat>)
    requires Enumerates(ids, r.tokens.players)
    ensures RestoreGame(g, r, ids).Ok? <==> Restorable(g.maps, r)
  {
    hide PlayerRestorable;
    SessionsRestoreIff(g, r.sessions);
    match RestoreSessions(g, r.sessions) {
      case Err(_) =>
      case Ok(h) =>
        PlayersRestoreIff(h, ids, r.tokens);
        assert (forall id :: id in ids ==> PlayerRestorable(g.maps, r.tokens, id))
          <==> (forall id :: id in r.tokens.players ==> PlayerRestorable(g.maps, r.tokens, id));
    }
  }
}
