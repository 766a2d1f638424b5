/**
  The game object: sessions with their dogs, and the indexes of players.  Each method changes them in place and
  is tied to the operation on the plain value of the game.
 */
module Games {
  import opened Wrappers
  import opened Geometry
  import opened RoadMap
  import opened Dogs
  import opened LootGenerators
  import opened SessionModel
  import opened SessionTick
  import opened SessionContest
  import opened GameSessions
  import opened PlayerTokens
  import opened Registry
  import M = GameModel
  import R = GameRuns
  import S = Serialization
  import DogFiles

  datatype JoinError = MapNotFound | Lookup(error: LookupError)

  /** What the database is told about a retired player. */
  datatype Record = Record(name: string, score: nat, playTimeMs: nat)

  /** The player's name, and the score and the life clock of its dog, are on record. */
  ghost predicate IsRecord(record: Record, g: M.Game, id: nat) {
    && R.HasDogState(g, id)
    && record.name == g.tokens.players[id].name == R.DogOf(g, id).name
    && record.score == R.DogOf(g, id).score
    && record.playTimeMs == R.DogOf(g, id).liveTime
  }

  /** One record for each of the players, in order. */
  ghost predicate AreRecords(records: seq<Record>, g: M.Game, ids: seq<nat>) {
    |records| == |ids| && forall i :: 0 <= i < |ids| ==> IsRecord(records[i], g, ids[i])
  }

  lemma NoRecords(g: M.Game)
    ensures AreRecords([], g, [])
  {
  }

  lemma OneMoreRecord(records: seq<Record>, g: M.Game, ids: seq<nat>, i: nat, record: Record)
    requires i < |ids| && AreRecords(records, g, ids[..i]) && IsRecord(record, g, ids[i])
    ensures AreRecords(records + [record], g, ids[..i + 1])
  {
    hide IsRecord;
    assert forall j :: 0 <= j < i ==> ids[..i][j] == ids[..i + 1][j];
  }

  lemma RecordsInFields(records: seq<Record>, g: M.Game, ids: seq<nat>)
    requires AreRecords(records, g, ids)
    ensures |records| == |ids|
    ensures forall i :: 0 <= i < |ids| ==>
        && R.HasDogState(g, ids[i])
        && records[i].name == g.tokens.players[ids[i]].name
        && records[i].score == R.DogOf(g, ids[i]).score
        && records[i].playTimeMs == R.DogOf(g, ids[i]).liveTime
  {
    hide R.HasDogState;
  }

  class Game {
    const maps: map<MapId, GameMap>
    const lootPeriodMs: nat
    const curve: Curve
    const tokens: PlayerTokens
    var sessions: map<MapId, GameSession>
    var nameToId: map<string, nat>
    var onMap: map<MapId, set<nat>>
    var nextPlayer: nat
    var nextDog: nat
    var nextLoot: nat

    constructor (maps: map<MapId, GameMap>, lootPeriodMs: nat, curve: Curve)
      requires forall k :: k in maps ==> maps[k].id == k && maps[k].Valid()
      ensures Valid() && State() == M.NewGame(maps)
    {
      this.maps, this.lootPeriodMs, this.curve := maps, lootPeriodMs, curve;
      tokens := new PlayerTokens();
      sessions, nameToId, onMap := map[], map[], map[];
      nextPlayer, nextDog, nextLoot := 0, 0, 0;
    }

    /** Each session is filed under the id of its map, so no session and no dog is in two places. */
    ghost predicate SessionsValid()
      reads this`sessions, sessions.Values`dogs
    {
      && (forall k :: k in maps ==> maps[k].id == k && maps[k].Valid())
      && (forall k :: k in sessions ==> k in maps && sessions[k].m == maps[k] && sessions[k].Valid())
      && (forall k :: k in sessions ==> OwnGenerator(sessions[k]))
      && (forall j, k :: j in sessions && k in sessions && j != k ==> sessions[j].generator != sessions[k].generator)
    }

    /** The session's generator works with the interval and the curve of the game. */
    ghost predicate OwnGenerator(session: GameSession) {
      session.generator.baseIntervalMs == lootPeriodMs && session.generator.curve == curve
    }

    /** How long nothing has appeared in the session of a map; a session to come starts anew. */
    ghost function LootClock(k: MapId): nat
      reads this`sessions, set j | j in sessions :: sessions[j].generator
    {
      if k in sessions then sessions[k].generator.timeWithoutLoot else 0
    }

    /** Two sessions share nothing. */
    lemma Apart(j: MapId, k: MapId)
      requires SessionsValid() && j in sessions && k in sessions && j != k
      ensures sessions[j] != sessions[k] && sessions[j].dogs.Values !! sessions[k].dogs.Values
    {
    }

    /** The player's session is filed under its map, and its dog is in it. */
    ghost predicate Placed(id: nat, p: PlayerRef)
      reads this`sessions, sessions.Values`dogs
    {
      && p.id == id
      && p.session.m.id in sessions && sessions[p.session.m.id] == p.session
      && p.dog.id in p.session.dogs && p.session.dogs[p.dog.id] == p.dog
    }

    /** What being filed under k means for a session. */
    lemma FiledOnce(k: MapId)
      requires SessionsValid() && k in sessions
      ensures k in maps && maps[k].Valid() && sessions[k].m == maps[k] && sessions[k].Valid()
      ensures OwnGenerator(sessions[k])
      ensures forall j :: j in sessions && j != k ==>
          sessions[j] != sessions[k] && sessions[j].generator != sessions[k].generator
    {
    }

    /** Each player points at the session of its map and at its dog there. */
    ghost predicate PlayersValid()
      reads this`sessions, tokens, sessions.Values`dogs
    {
      forall id :: id in tokens.players ==> Placed(id, tokens.players[id])
    }

    ghost predicate Valid()
      reads this`sessions, tokens, sessions.Values`dogs
    {
      SessionsValid() && PlayersValid()
    }

    /** The sessions are in order, and if `sound` the players are, too. */
    ghost predicate ValidIf(sound: bool)
      reads this`sessions, tokens, sessions.Values`dogs
    {
      SessionsValid() && (sound ==> PlayersValid())
    }

    ghost function DogObjects(): set<Dog>
      reads this`sessions, sessions.Values`dogs
    {
      set k, id | k in sessions && id in sessions[k].dogs :: sessions[k].dogs[id]
    }

    /** The plain value of each session. */
    ghost function States(): map<MapId, Session>
      reads this`sessions, sessions.Values, DogObjects()
    {
      map k | k in sessions :: sessions[k].State()
    }

    ghost function State(): M.Game
      reads this, tokens, sessions.Values, DogObjects()
    {
      M.Game(maps, States(), nameToId, onMap, tokens.State(), nextPlayer, nextDog, nextLoot)
    }

    // -------------------------------------------------------------------------------------------
    // Ticks

    /** The tick of one session leaves the others alone. */
    method TickSession(k: MapId, session: GameSession, deltaMs: nat) returns (ok: bool, ghost hits: seq<Hit>)
      requires Valid() && k in sessions && sessions[k] == session
      modifies session`lost, session`history, session.dogs.Values
      ensures Valid() && k in maps
      ensures forall j :: j in sessions && j != k ==> sessions[j].State() == old(sessions[j].State())
      ensures ok ==> SessionTicked(maps[k], old(session.State()), session.State(), deltaMs, hits)
      ensures !ok ==> SessionFaulted(maps[k], old(session.State()), deltaMs, hits)
    {
      hide GameSession.State;
      forall j | j in sessions && j != k
        ensures sessions[j] != session && sessions[j].dogs.Values !! session.dogs.Values
      {
        Apart(j, k);
      }
      ok, hits := session.UpdateTime(deltaMs);
    }

    /** The ticks done so far, for the sessions outside `todo`. */
    ghost predicate TickedSoFar(before: map<MapId, Session>, deltaMs: nat, hits: map<MapId, seq<Hit>>, todo: set<MapId>)
      reads this, sessions.Values, DogObjects()
    {
      && before.Keys == sessions.Keys && sessions.Keys <= maps.Keys && todo <= sessions.Keys
      && hits.Keys == sessions.Keys - todo
      && (forall k :: k in todo ==> sessions[k].State() == before[k])
      && (forall k :: k in hits ==> SessionTicked(maps[k], before[k], sessions[k].State(), deltaMs, hits[k]))
    }

    /** One more session ticks. */
    method TickNext(k: MapId, session: GameSession, deltaMs: nat, ghost before: map<MapId, Session>,
        ghost done: map<MapId, seq<Hit>>, ghost todo: set<MapId>)
      returns (ok: bool, ghost hits: map<MapId, seq<Hit>>)
      requires Valid() && k in todo && TickedSoFar(before, deltaMs, done, todo) && sessions[k] == session
      modifies session`lost, session`history, session.dogs.Values
      ensures Valid()
      ensures ok ==> TickedSoFar(before, deltaMs, hits, todo - {k})
      ensures !ok ==> exists h :: SessionFaulted(maps[k], before[k], deltaMs, h)
    {
      hide GameSession.State, SessionFaulted, SessionTicked, SessionsValid, PlayersValid;
      ghost var h;
      ok, h := TickSession(k, session, deltaMs);
      hits := done[k := h];
    }

    lemma NothingTicked(before: map<MapId, Session>, deltaMs: nat)
      requires Valid() && before == State().sessions
      ensures before.Keys == sessions.Keys && TickedSoFar(before, deltaMs, map[], sessions.Keys)
    {
    }

    /** The loop over the sessions. */
    method TickAll(deltaMs: nat, ghost before: map<MapId, Session>) returns (ok: bool, ghost hits: map<MapId, seq<Hit>>)
      requires Valid() && before == State().sessions
      modifies sessions.Values`lost, sessions.Values`history, DogObjects()
      ensures Valid()
      ensures ok ==> TickedSoFar(before, deltaMs, hits, {})
      ensures !ok ==>
          exists k, h ::
            k in sessions && k in maps && k in before && SessionFaulted(maps[k], before[k], deltaMs, h)
    {
      hide State, States, TickedSoFar, GameSession.State, SessionFaulted, SessionTicked, SessionsValid, PlayersValid;
      SessionsHaveMaps();
      NothingTicked(before, deltaMs);
      hits := map[];
      var todo := sessions.Keys;
      while todo != {}
        invariant Valid() && todo <= sessions.Keys
        invariant TickedSoFar(before, deltaMs, hits, todo)
        decreases todo
      {
        var k :| k in todo;
        ok, hits := TickNext(k, sessions[k], deltaMs, before, hits, todo);
        if !ok {
          return;
        }
        todo := todo - {k};
      }
      ok := true;
    }

    /** The ticks of all sessions.  False is the fault of an empty bag slot in one of them. */
    method UpdateTimeInSessions(deltaMs: nat) returns (ok: bool, ghost hits: map<MapId, seq<Hit>>)
      requires Valid()
      modifies sessions.Values`lost, sessions.Values`history, DogObjects()
      ensures Valid()
      ensures ok ==> M.TicksAreFine(old(State()), deltaMs, hits) && State() == M.AfterTicks(old(State()), deltaMs, hits)
      ensures !ok ==> TickFaulted(old(State()), deltaMs)
    {
      hide GameSession.State, SessionFaulted, M.TicksAreFine, M.AfterTicks, SessionTicked, SessionsValid, PlayersValid;
      ghost var before := State();
      ok, hits := TickAll(deltaMs, before.sessions);
      if ok {
        AllTicked(before, State().sessions, deltaMs, hits);
      }
    }

    lemma SessionsHaveMaps()
      requires Valid()
      ensures sessions.Keys <= maps.Keys
    {
    }

    static lemma AllTicked(g: M.Game, after: map<MapId, Session>, deltaMs: nat, hits: map<MapId, seq<Hit>>)
      requires g.sessions.Keys == after.Keys && after.Keys <= g.maps.Keys && hits.Keys == after.Keys
      requires forall k :: k in after ==> SessionTicked(g.maps[k], g.sessions[k], after[k], deltaMs, hits[k])
      ensures M.TicksAreFine(g, deltaMs, hits) && M.AfterTicks(g, deltaMs, hits) == g.(sessions := after)
    {
      hide M.TickIsFine, AfterTick;
    }

    static ghost predicate SessionTicked(m: GameMap, s: Session, t: Session, deltaMs: nat, hits: seq<Hit>) {
      M.TickIsFine(m, s, deltaMs, hits) && t == AfterTick(m, s, deltaMs, hits).s
    }

    /** The replay of a session's gather events runs into an empty bag slot. */
    static ghost predicate SessionFaulted(m: GameMap, s: Session, deltaMs: nat, hits: seq<Hit>) {
      var moved := Moved(m, s, deltaMs);
      AreHits(m, moved, hits) && DogsPresent(moved, hits) && Replay(m.lootValues, moved, hits).Fault?
    }

    /** The tick of some session faults. */
    static ghost predicate TickFaulted(g: M.Game, deltaMs: nat) {
      exists k, hits :: k in g.sessions && k in g.maps && SessionFaulted(g.maps[k], g.sessions[k], deltaMs, hits)
    }

    // -------------------------------------------------------------------------------------------
    // Joining

    /** When only the session of one map changed, the plain value changed there only. */
    twostate lemma OneSessionPut(k: MapId, new session: GameSession)
      requires sessions == old(sessions)[k := session]
      requires forall j :: j in old(sessions) && j != k ==> old(sessions)[j].State() == old(sessions[j].State())
      requires nameToId == old(nameToId) && onMap == old(onMap) && tokens.State() == old(tokens.State())
      requires nextPlayer == old(nextPlayer) && nextDog == old(nextDog) && nextLoot == old(nextLoot)
      ensures State() == M.PutSession(old(State()), k, session.State())
    {
      hide GameSession.State, PlayerTokens.State;
      assert State().sessions == old(State()).sessions[k := session.State()];
    }

    static twostate lemma Untouched(session: GameSession)
      requires unchanged(session) && forall id :: id in session.dogs ==> unchanged(session.dogs[id])
      ensures session.State() == old(session.State())
    {
    }

    method AddSession(k: MapId, session: GameSession, ghost sound: bool)
      requires ValidIf(sound) && k in maps && k !in sessions && session.m == maps[k] && session.dogs == map[]
      requires OwnGenerator(session) && forall j :: j in sessions ==> sessions[j].generator != session.generator
      modifies this`sessions
      ensures ValidIf(sound) && sessions == old(sessions)[k := session]
    {
      sessions := sessions[k := session];
      assert SessionsValid();
      hide SessionsValid;
      if sound {
        forall id | id in tokens.players ensures Placed(id, tokens.players[id]) {
          assert old(Placed(id, tokens.players[id]));
        }
      }
    }

    method CreateSession(k: MapId, ghost sound: bool) returns (session: GameSession)
      requires ValidIf(sound) && k in maps && k !in sessions
      modifies this`sessions
      ensures ValidIf(sound) && sessions == old(sessions)[k := session] && session.m == maps[k]
      ensures fresh(session) && fresh(session.generator) && session.dogs == map[] && session.State() == EMPTY_SESSION
      ensures OwnGenerator(session) && session.generator.timeWithoutLoot == 0
      ensures State() == M.PutSession(old(State()), k, EMPTY_SESSION)
    {
      hide GameSession.State, States, ValidIf, PlayerTokens.State;
      var generator := new LootGenerator(lootPeriodMs, curve);
      session := new GameSession(maps[k], generator);
      AddSession(k, session, sound);
      forall j | j in old(sessions) ensures old(sessions)[j].State() == old(sessions[j].State()) {
        Untouched(sessions[j]);
      }
      OneSessionPut(k, session);
    }

    /** The session of a map, created on first use; None stands for the exception of an unknown map. */
    method FindSession(k: MapId, ghost sound: bool) returns (r: Option<GameSession>)
      requires ValidIf(sound)
      modifies this`sessions
      ensures ValidIf(sound) && (r.Some? <==> k in maps)
      ensures r.None? ==> sessions == old(sessions) && State() == old(State())
      ensures r.Some? ==> k in sessions && sessions[k] == r.value && r.value.m == maps[k] && r.value.m.id == k
      ensures r.Some? ==> sessions == if k in old(sessions) then old(sessions) else old(sessions)[k := r.value]
      ensures r.Some? && k !in old(sessions) ==> fresh(r.value) && fresh(r.value.generator) && r.value.dogs == map[]
      ensures r.Some? ==> OwnGenerator(r.value) && r.value.generator.timeWithoutLoot == old(LootClock(k))
      ensures r.Some? ==> r.value.State() == M.SessionOf(old(State()), k)
      ensures r.Some? ==>
        State() == if k in old(sessions) then old(State()) else M.PutSession(old(State()), k, EMPTY_SESSION)
    {
      hide PlayersValid;
      if k !in sessions {
        if k !in maps {
          return None;
        }
        var session := CreateSession(k, sound);
        r := Some(session);
      } else {
        r := Some(sessions[k]);
      }
    }

    /** Sessions stay filed as they are as long as each is in order by itself. */
    twostate lemma SessionsStayFiled()
      requires old(SessionsValid()) && sessions == old(sessions)
      requires forall k :: k in sessions ==> sessions[k].Valid()
      ensures SessionsValid()
    {
      hide GameSession.Valid;
    }

    lemma SessionsAreValid()
      requires SessionsValid()
      ensures forall k :: k in sessions ==> sessions[k].Valid()
    {
    }

    lemma PlayersPlaced()
      ensures PlayersValid() <==> forall id :: id in tokens.players ==> Placed(id, tokens.players[id])
    {
    }

    /** The session gets a dog under the next id, and the loot of one period. */
    method AddDogIn(k: MapId, session: GameSession, name: string, spawn: Vec, random: real, dice: int -> Roll)
      returns (dog: Dog, next: nat, ghost drawn: seq<Loot>)
      requires Valid() && k in sessions && sessions[k] == session && nextDog !in session.dogs
      modifies session, session.generator
      ensures Valid() && dog.id == nextDog && nextDog in session.dogs && session.dogs[nextDog] == dog
      ensures k in maps && session.m == maps[k] && OwnGenerator(session) && next == nextLoot + |drawn|
      ensures FairDraw(session.m,
          AfterAddDog(old(session.State()), NewDog(nextDog, name, spawn, session.m.bagCapacity)),
          dice, nextLoot, drawn)
      ensures IsBatch(session.m, AfterAddDog(old(session.State()), NewDog(nextDog, name, spawn, session.m.bagCapacity)),
          session.generator.curve.q, old(session.generator.timeWithoutLoot) + session.generator.baseIntervalMs, random,
          |drawn|)
      ensures session.State() ==
          AfterAddLoots(AfterAddDog(old(session.State()), NewDog(nextDog, name, spawn, session.m.bagCapacity)), drawn)
    {
      hide GameSession.State, GameSession.Valid, SessionsValid, PlayersValid, AfterAddLoots, AfterAddDog, NewDog,
        FairDraw, IsBatch;
      FiledOnce(k);
      PlayersPlaced();
      SessionsAreValid();
      dog, next, drawn := session.AddNewDog(nextDog, name, spawn, random, dice, nextLoot);
      SessionsStayFiled();
      forall id | id in tokens.players ensures Placed(id, tokens.players[id]) {
        assert old(Placed(id, tokens.players[id]));
      }
      PlayersPlaced();
    }

    /** The same for the whole game: the session of map k. */
    method AddDogTo(k: MapId, session: GameSession, name: string, spawn: Vec, random: real, dice: int -> Roll)
      returns (dog: Dog, next: nat, ghost drawn: seq<Loot>)
      requires Valid() && k in sessions && sessions[k] == session && nextDog !in session.dogs
      modifies session, session.generator
      ensures Valid() && dog.id == nextDog && nextDog in session.dogs && session.dogs[nextDog] == dog
      ensures k in maps && next == nextLoot + |drawn|
      ensures FairDraw(maps[k], AfterAddDog(old(session.State()), NewDog(nextDog, name, spawn, maps[k].bagCapacity)),
          dice, nextLoot, drawn)
      ensures IsBatch(maps[k], AfterAddDog(old(session.State()), NewDog(nextDog, name, spawn, maps[k].bagCapacity)),
          curve.q, old(session.generator.timeWithoutLoot) + lootPeriodMs, random, |drawn|)
      ensures session.State() ==
          AfterAddLoots(AfterAddDog(old(session.State()), NewDog(nextDog, name, spawn, maps[k].bagCapacity)), drawn)
      ensures State() == M.PutSession(old(State()), k, session.State())
    {
      hide GameSession.State, States, AfterAddLoots, FairDraw, IsBatch, SessionsValid, PlayersValid, PlayerTokens.State;
      FiledOnce(k);
      dog, next, drawn := AddDogIn(k, session, name, spawn, random, dice);
      forall j | j in sessions && j != k ensures sessions[j].State() == old(sessions[j].State()) {
        Untouched(sessions[j]);
      }
      OneSessionPut(k, session);
    }

    /** The player is in the tokens, and points at its session and dog. */
    method AddToTokens(player: PlayerRef, token: Token, ghost sound: bool)
      requires ValidIf(sound) && Placed(player.id, player)
      modifies tokens
      ensures ValidIf(sound) && tokens.State() == WithPlayer(old(tokens.State()), Plain(player), token)
    {
      hide SessionsValid, Placed, PlayerTokens.State;
      tokens.AddPlayer(player, token);
    }

    /** The three indexes of a new player. */
    method AddToIndexes(player: PlayerRef, token: Token, ghost sound: bool)
      requires ValidIf(sound) && Placed(player.id, player)
      modifies this`nameToId, this`onMap, tokens
      ensures ValidIf(sound)
      ensures tokens.State() == WithPlayer(old(tokens.State()), Plain(player), token)
      ensures nameToId == old(nameToId)[player.name := player.id]
      ensures onMap == old(onMap)[player.session.m.id := Get(old(onMap), player.session.m.id) + {player.id}]
    {
      hide SessionsValid, PlayersValid, Placed, PlayerTokens.State;
      var k := player.session.m.id;
      nameToId := nameToId[player.name := player.id];
      onMap := onMap[k := Get(onMap, k) + {player.id}];
      AddToTokens(player, token, sound);
    }

    /** Files a player whose dog is in its session. */
    method FilePlayer(player: PlayerRef, token: Token, ghost sound: bool)
      requires ValidIf(sound)
      requires player.session.m.id in sessions && sessions[player.session.m.id] == player.session
      requires player.dog.id in player.session.dogs && player.session.dogs[player.dog.id] == player.dog
      modifies this`nameToId, this`onMap, tokens
      ensures ValidIf(sound) && State() == M.Filed(old(State()), Plain(player), token)
    {
      hide GameSession.State, States, ValidIf, PlayerTokens.State;
      AddToIndexes(player, token, sound);
      assert DogObjects() == old(DogObjects());
      assert States() == old(States());
    }

    method SetCounters(player: nat, dog: nat, loot: nat, ghost sound: bool)
      requires ValidIf(sound)
      modifies this`nextPlayer, this`nextDog, this`nextLoot
      ensures ValidIf(sound) && State() == old(State()).(nextPlayer := player, nextDog := dog, nextLoot := loot)
    {
      hide GameSession.State, States, SessionsValid, PlayersValid, PlayerTokens.State;
      nextPlayer, nextDog, nextLoot := player, dog, loot;
      assert DogObjects() == old(DogObjects());
      assert States() == old(States());
    }

    /** The session of the map, created if need be, gets a new dog and its loot. */
    method AddDogOn(name: string, k: MapId, spawn: Vec, random: real, dice: int -> Roll)
      returns (session: GameSession, dog: Dog, next: nat, ghost drawn: seq<Loot>)
      requires Valid() && k in maps && (k in sessions ==> nextDog !in sessions[k].dogs)
      modifies this`sessions, sessions.Values, set j | j in sessions :: sessions[j].generator
      ensures Valid() && k in sessions && sessions[k] == session && session.m.id == k
      ensures dog.id == nextDog && nextDog in session.dogs && session.dogs[nextDog] == dog
      ensures next == nextLoot + |drawn|
      ensures FairDraw(maps[k], WithNewDog(old(State()), name, k, spawn), dice, nextLoot, drawn)
      ensures IsBatch(maps[k], WithNewDog(old(State()), name, k, spawn), curve.q, old(LootClock(k)) + lootPeriodMs,
          random, |drawn|)
      ensures State() == M.PutSession(old(State()), k, M.JoinedSession(old(State()), name, k, spawn, drawn))
    {
      hide GameSession.State, States, AfterAddLoots, FairDraw, IsBatch, SessionsValid, PlayersValid, PlayerTokens.State;
      ghost var g := State();
      var found := FindSession(k, true);
      session := found.value;
      ghost var h := State();
      dog, next, drawn := AddDogTo(k, session, name, spawn, random, dice);
      assert M.PutSession(h, k, session.State()) == M.PutSession(g, k, session.State());
    }

    /** The game h after a player of a new name joined, with a fair draw of objects. */
    static ghost predicate IsJoin(g: M.Game, h: M.Game, name: string, k: MapId, spawn: Vec, token: Token,
        dice: int -> Roll, drawn: seq<Loot>)
    {
      && k in g.maps && h == M.AfterJoin(g, name, k, spawn, token, drawn)
      && FairDraw(g.maps[k], WithNewDog(g, name, k, spawn), dice, g.nextLoot, drawn)
    }

    /** A player of a new name: dog, session, player, indexes and counters. */
    method JoinNew(name: string, k: MapId, spawn: Vec, token: Token, random: real, dice: int -> Roll)
      returns (ghost drawn: seq<Loot>)
      requires Valid() && k in maps && nextPlayer !in tokens.players && (k in sessions ==> nextDog !in sessions[k].dogs)
      modifies this, tokens, sessions.Values, set j | j in sessions :: sessions[j].generator
      ensures Valid() && IsJoin(old(State()), State(), name, k, spawn, token, dice, drawn)
      ensures IsBatch(maps[k], WithNewDog(old(State()), name, k, spawn), curve.q, old(LootClock(k)) + lootPeriodMs,
          random, |drawn|)
    {
      hide GameSession.State, States, AfterAddLoots, FairDraw, IsBatch, WithNewDog, SessionsValid, PlayersValid,
        PlayerTokens.State;
      var session, dog, next, d := AddDogOn(name, k, spawn, random, dice);
      drawn := d;
      FilePlayer(PlayerRef(nextPlayer, name, session, dog), token, true);
      SetCounters(nextPlayer + 1, nextDog + 1, next, true);
    }

    lemma MapHasRoads(k: MapId)
      requires SessionsValid() && k in maps
      ensures maps[k].roads != []
    {
    }

    /** The name decides whether anybody joins at all.  A token in use stays with its old owner, as the maps keep
        older entries; the runs of the game ask for a token that is not. */
    method JoinGame(name: string, k: MapId, randomSpawn: bool, place: Roll, token: Token, random: real,
        dice: int -> Roll)
      returns (r: Result<Token, JoinError>, ghost drawn: seq<Loot>)
      requires Valid() && M.GameInv(State())
      modifies this, tokens, sessions.Values, set j | j in sessions :: sessions[j].generator
      ensures Valid()
      ensures k !in maps ==> r == Err(MapNotFound) && State() == old(State())
      ensures k in maps && name in old(nameToId) ==>
                r == Ok(old(tokens.ofId)[old(nameToId)[name]]) && State() == old(State())
      ensures k in maps && name !in old(nameToId) ==>
                var spawn := SpawnAt(maps[k], randomSpawn, place);
                && r == Ok(token) && State() == M.AfterJoin(old(State()), name, k, spawn, token, drawn)
                && FairDraw(maps[k], WithNewDog(old(State()), name, k, spawn), dice, old(nextLoot), drawn)
                && IsBatch(maps[k], WithNewDog(old(State()), name, k, spawn), curve.q,
                    old(LootClock(k)) + lootPeriodMs, random, |drawn|)
    {
      hide GameSession.State, AfterAddLoots, FairDraw, IsBatch, SessionsValid, PlayersValid, M.AfterJoin, M.GameInv;
      drawn := [];
      if k !in maps {
        return Err(MapNotFound), [];
      }
      MapHasRoads(k);
      FreshIds();
      if name !in nameToId {
        drawn := JoinNew(name, k, SpawnAt(maps[k], randomSpawn, place), token, random, dice);
        r := Ok(token);
      } else {
        var found := tokens.FindTokenByPlayerId(nameToId[name]);
        r := match found case Ok(t) => Ok(t) case Err(e) => Err(Lookup(e));
      }
    }

    /** What the invariant says about the ids about to be used, and about the tokens of known names. */
    lemma FreshIds()
      requires M.GameInv(State())
      ensures nextPlayer !in tokens.players && forall k :: k in sessions ==> nextDog !in sessions[k].dogs
      ensures forall n :: n in nameToId ==> nameToId[n] in tokens.ofId
    {
      hide M.GameInv, DogObjects;
      M.CountersAreFresh(State());
      assert tokens.players.Keys == State().tokens.players.Keys;
      forall k | k in sessions ensures nextDog !in sessions[k].dogs {
        assert sessions[k].dogs.Keys == State().sessions[k].dogs.Keys;
      }
    }

    // -------------------------------------------------------------------------------------------
    // Orders

    /** The dog of a session obeys. */
    method SteerIn(session: GameSession, dog: Dog, direction: string) returns (ok: bool)
      requires session.Valid() && dog.id in session.dogs && session.dogs[dog.id] == dog
      modifies dog
      ensures ok == ValidDirection(direction)
      ensures session.State() == M.AfterSteer(old(session.State()), dog.id, direction, session.m.dogSpeed)
    {
      ok := dog.Steer(direction, session.m.dogSpeed);
      session.OneDogChanged(dog.id);
      assert !ok ==> session.State().dogs == old(session.State()).dogs;
    }

    /** A player's order reaches its dog and nobody else's; false stands for the rejected direction. */
    method SetDirection(id: nat, direction: string) returns (ok: bool)
      requires Valid() && id in tokens.players
      modifies tokens.players[id].dog
      ensures Valid() && ok == ValidDirection(direction)
      ensures R.HasPlace(old(State()), id) && State() == M.AfterOrder(old(State()), id, direction)
    {
      hide GameSession.State, States, SessionsValid, PlayersValid, PlayerTokens.State;
      var p := tokens.players[id];
      HomeOf(id, p);
      DogAtHome(id, p);
      ok := SteerIn(p.session, p.dog, direction);
      forall j | j in sessions && j != p.session.m.id ensures sessions[j].State() == old(sessions[j].State()) {
        Untouched(sessions[j]);
      }
      OneSessionPut(p.session.m.id, p.session);
    }

    /** A player's dog is in its session, as the plain value says, and in no other. */
    lemma DogAtHome(id: nat, p: PlayerRef)
      requires Valid() && id in tokens.players && tokens.players[id] == p
      ensures p.session.Valid() && p.dog.id in p.session.dogs && p.session.dogs[p.dog.id] == p.dog
      ensures p.session.m.id in maps && p.session.m == maps[p.session.m.id]
      ensures forall j, dog :: j in sessions && j != p.session.m.id && dog in sessions[j].dogs ==>
          sessions[j].dogs[dog] != p.dog
      ensures R.HasPlace(State(), id) && State().tokens.players[id] == Plain(p)
    {
    }

    // -------------------------------------------------------------------------------------------
    // New loot

    /** The session of map k draws new loot. */
    method DrawIn(k: MapId, session: GameSession, deltaMs: nat, random: real, dice: int -> Roll)
      returns (next: nat, ghost drawn: seq<Loot>)
      requires Valid() && k in sessions && sessions[k] == session
      modifies session`lost, session`history, session.generator
      ensures Valid() && k in maps && next == nextLoot + |drawn|
      ensures FairDraw(maps[k], old(session.State()), dice, nextLoot, drawn)
      ensures IsBatch(maps[k], old(session.State()), curve.q, old(LootClock(k)) + deltaMs, random, |drawn|)
      ensures session.State() == AfterAddLoots(old(session.State()), drawn)
      ensures forall j :: j in sessions && j != k ==>
          sessions[j].State() == old(sessions[j].State()) && LootClock(j) == old(LootClock(j))
    {
      hide GameSession.State, States, SessionsValid, PlayersValid, PlayerTokens.State, AfterAddLoots, Appearing,
        Brought, FairDraw, IsBatch;
      FiledOnce(k);
      next, drawn := session.GenerateLoot(deltaMs, random, dice, nextLoot);
      forall j | j in sessions && j != k ensures sessions[j].State() == old(sessions[j].State()) {
        Untouched(sessions[j]);
      }
    }

    lemma SessionInState(k: MapId)
      requires k in sessions
      ensures k in State().sessions && State().sessions[k] == M.SessionOf(State(), k) == sessions[k].State()
    {
    }

    /** New loot in one session, on the common counter. */
    method GenerateIn(k: MapId, session: GameSession, deltaMs: nat, random: real, dice: int -> Roll)
      returns (ghost drawn: seq<Loot>)
      requires Valid() && k in sessions && sessions[k] == session
      modifies this`nextLoot, session`lost, session`history, session.generator
      ensures Valid() && k in maps
      ensures FairDraw(maps[k], M.SessionOf(old(State()), k), dice, old(nextLoot), drawn)
      ensures IsBatch(maps[k], M.SessionOf(old(State()), k), curve.q, old(LootClock(k)) + deltaMs, random, |drawn|)
      ensures State() == M.AfterNewLoot(old(State()), k, drawn)
      ensures forall j :: j in sessions && j != k ==> LootClock(j) == old(LootClock(j))
    {
      hide GameSession.State, States, SessionsValid, PlayersValid, PlayerTokens.State, AfterAddLoots, FairDraw, IsBatch;
      SessionInState(k);
      var next, d := DrawIn(k, session, deltaMs, random, dice);
      drawn := d;
      OneSessionPut(k, session);
      SetNextLoot(next);
    }

    method SetNextLoot(next: nat)
      requires Valid()
      modifies this`nextLoot
      ensures Valid() && State() == old(State()).(nextLoot := next)
    {
      hide GameSession.State, States, SessionsValid, PlayersValid, PlayerTokens.State;
      nextLoot := next;
      assert DogObjects() == old(DogObjects());
      assert States() == old(States());
    }

    /** New loot in one more session. */
    method GenerateNext(k: MapId, session: GameSession, ghost g: M.Game, ghost clocks: map<MapId, nat>,
        ghost log: seq<(MapId, seq<Loot>)>, ghost done: set<MapId>, deltaMs: nat, random: real,
        dice: MapId -> (int -> Roll))
      returns (ghost longer: seq<(MapId, seq<Loot>)>)
      requires Valid() && k in sessions && sessions[k] == session
      requires State() == AfterLootLog(g, log) && IsLootLog(g, log, dice, done) && k !in done
      requires AreBatches(g, log, curve.q, clocks, deltaMs, random) && k in clocks && clocks[k] == LootClock(k)
      modifies this`nextLoot, session`lost, session`history, session.generator
      ensures Valid() && State() == AfterLootLog(g, longer) && IsLootLog(g, longer, dice, done + {k})
      ensures AreBatches(g, longer, curve.q, clocks, deltaMs, random)
      ensures forall j :: j in sessions && j != k ==> LootClock(j) == old(LootClock(j))
    {
      hide GameSession.State, States, SessionsValid, PlayersValid, PlayerTokens.State, M.AfterNewLoot, FairDraw,
        AfterLootLog, IsLootLog, AreBatches, IsBatch;
      SessionInState(k);
      ghost var h := State();
      ghost var drawn := GenerateIn(k, session, deltaMs, random, dice(k));
      LongerLog(g, log, h, k, drawn, dice, done);
      OneMoreBatch(g, log, h, k, drawn, dice, done, curve.q, clocks, deltaMs, random);
      longer := log + [(k, drawn)];
    }

    /** The draws done so far, for the sessions outside `todo`, whose clocks are as they were. */
    ghost predicate DrawnSoFar(g: M.Game, clocks: map<MapId, nat>, log: seq<(MapId, seq<Loot>)>, deltaMs: nat,
        random: real, dice: MapId -> (int -> Roll), todo: set<MapId>)
      reads this, tokens, sessions.Values, DogObjects(), set j | j in sessions :: sessions[j].generator
    {
      && todo <= sessions.Keys == clocks.Keys && State() == AfterLootLog(g, log)
      && IsLootLog(g, log, dice, sessions.Keys - todo) && AreBatches(g, log, curve.q, clocks, deltaMs, random)
      && forall k :: k in todo ==> clocks[k] == LootClock(k)
    }

    lemma NothingDrawn(deltaMs: nat, random: real, dice: MapId -> (int -> Roll))
      ensures DrawnSoFar(State(), Clocks(), [], deltaMs, random, dice, sessions.Keys)
    {
      hide GameSession.State, States, PlayerTokens.State, State;
      EmptyLog(State(), dice);
      assert sessions.Keys - sessions.Keys == {};
    }

    method DrawNext(k: MapId, session: GameSession, ghost g: M.Game, ghost clocks: map<MapId, nat>,
        ghost log: seq<(MapId, seq<Loot>)>, deltaMs: nat, random: real, dice: MapId -> (int -> Roll),
        ghost todo: set<MapId>)
      returns (ghost longer: seq<(MapId, seq<Loot>)>)
      requires Valid() && k in todo && DrawnSoFar(g, clocks, log, deltaMs, random, dice, todo)
      requires k in sessions && sessions[k] == session
      modifies this`nextLoot, session`lost, session`history, session.generator
      ensures Valid() && DrawnSoFar(g, clocks, longer, deltaMs, random, dice, todo - {k})
    {
      hide State, GameSession.State, States, SessionsValid, PlayersValid, PlayerTokens.State, AfterLootLog, IsLootLog,
        AreBatches;
      longer := GenerateNext(k, session, g, clocks, log, sessions.Keys - todo, deltaMs, random, dice);
      assert sessions.Keys - todo + {k} == sessions.Keys - (todo - {k});
    }

    /** New loot in every session, one after the other; `log` tells which.  Each session draws as much as its own clock
        and its objects and dogs make it draw. */
    method GenerateLootInSessions(deltaMs: nat, random: real, dice: MapId -> (int -> Roll))
      returns (ghost log: seq<(MapId, seq<Loot>)>)
      requires Valid()
      modifies this`nextLoot, sessions.Values`lost, sessions.Values`history
      modifies set j | j in sessions :: sessions[j].generator
      ensures Valid()
      ensures State() == AfterLootLog(old(State()), log) && IsLootLog(old(State()), log, dice, sessions.Keys)
      ensures AreBatches(old(State()), log, curve.q, old(Clocks()), deltaMs, random)
    {
      hide State, GameSession.State, States, SessionsValid, PlayersValid, PlayerTokens.State, AfterLootLog, IsLootLog,
        AreBatches, LootClock;
      ghost var g, clocks := State(), Clocks();
      log := [];
      var todo := sessions.Keys;
      NothingDrawn(deltaMs, random, dice);
      while todo != {}
        invariant todo <= sessions.Keys && Valid()
        invariant DrawnSoFar(g, clocks, log, deltaMs, random, dice, todo)
        decreases todo
      {
        var k :| k in todo;
        log := DrawNext(k, sessions[k], g, clocks, log, deltaMs, random, dice, todo);
        todo := todo - {k};
      }
      assert sessions.Keys - todo == sessions.Keys;
    }

    /** The clocks of all sessions. */
    ghost function Clocks(): map<MapId, nat>
      reads this`sessions, set j | j in sessions :: sessions[j].generator
    {
      map k | k in sessions :: LootClock(k)
    }

    // -------------------------------------------------------------------------------------------
    // Retirement

    /** The player leaves the tokens, and its dog the session. */
    method RemoveFromTokens(id: nat, p: PlayerRef)
      requires Valid() && id in tokens.players && id in tokens.ofId && tokens.players[id] == p
      requires forall j :: j in tokens.players && j != id ==> tokens.players[j].dog.id != p.dog.id
      modifies tokens, p.session`dogs, p.session`history
      ensures Valid() && p.session.m.id in sessions && sessions[p.session.m.id] == p.session
      ensures tokens.State() == WithoutPlayer(old(tokens.State()), id)
      ensures p.session.dogs == old(p.session.dogs) - {p.dog.id}
      ensures p.session.State() == AfterRemoveDog(old(p.session.State()), p.dog.id)
    {
      hide GameSession.State, GameSession.Valid, PlayerTokens.State, PlayersValid, SessionsValid, AfterRemoveDog,
        WithoutPlayer;
      PlayersPlaced();
      SessionsAreValid();
      tokens.RemovePlayer(id);
      SessionsStayFiled();
      forall j | j in tokens.players ensures Placed(j, tokens.players[j]) {
        assert old(Placed(j, tokens.players[j]));
      }
      PlayersPlaced();
    }

    /** Nobody shares a dog with the player who is about to leave. */
    lemma DogsAreOwn(id: nat, j: nat)
      requires M.GameInv(State()) && id in tokens.players && j in tokens.players && j != id
      ensures tokens.players[j].dog.id != tokens.players[id].dog.id
    {
      hide GameSession.State, States;
      var players := State().tokens.players;
      assert DogsInv(M.IndexOf(State()));
      assert players[j].dogId != players[id].dogId;
    }

    /** What the invariant says about a player who is about to leave. */
    lemma LeaverIsKnown(id: nat)
      requires M.GameInv(State()) && id in tokens.players
      ensures id in tokens.ofId && R.HasDogState(State(), id)
      ensures forall j :: j in tokens.players && j != id ==> tokens.players[j].dog.id != tokens.players[id].dog.id
    {
      hide GameSession.State, States, M.GameInv;
      R.InvHasTokens(State(), id);
      forall j | j in tokens.players && j != id ensures tokens.players[j].dog.id != tokens.players[id].dog.id {
        DogsAreOwn(id, j);
      }
    }

    /** The plain values of the sessions after one of them changed. */
    lemma OneStatePut(before: map<MapId, Session>, k: MapId)
      requires k in sessions && before.Keys == sessions.Keys
      requires forall j :: j in sessions && j != k ==> sessions[j].State() == before[j]
      ensures States() == before[k := sessions[k].State()]
    {
    }

    /** The player leaves the tokens and its dog the session; the other sessions stay as they are. */
    method LeaveSession(id: nat, p: PlayerRef, ghost before: map<MapId, Session>)
      requires Valid() && before == States() && id in tokens.players && id in tokens.ofId && tokens.players[id] == p
      requires forall j :: j in tokens.players && j != id ==> tokens.players[j].dog.id != p.dog.id
      modifies tokens, p.session`dogs, p.session`history
      ensures Valid() && p.session.m.id in before
      ensures tokens.State() == WithoutPlayer(old(tokens.State()), id)
      ensures States() == before[p.session.m.id := AfterRemoveDog(before[p.session.m.id], p.dog.id)]
    {
      hide GameSession.State, States, SessionsValid, PlayersValid, PlayerTokens.State;
      var k := p.session.m.id;
      HomeOf(id, p);
      RemoveFromTokens(id, p);
      forall j | j in sessions && j != k ensures sessions[j].State() == before[j] {
        Untouched(sessions[j]);
      }
      OneStatePut(before, k);
    }

    /** One player retires: out of the tokens, its session, the map's ids and the names. */
    method RetireOne(id: nat)
      requires Valid() && M.GameInv(State()) && id in tokens.players
      modifies this`nameToId, this`onMap, tokens, tokens.players[id].session`dogs, tokens.players[id].session`history
      ensures Valid() && id in old(tokens.ofId)
      ensures State() == M.AfterRetire(old(State()), id)
    {
      hide GameSession.State, States, SessionsValid, PlayersValid, PlayerTokens.State, M.GameInv;
      LeaverIsKnown(id);
      var p := tokens.players[id];
      ghost var g := State();
      assert g.tokens.players[id] == Plain(p) by { PlayerIsPlain(id); }
      LeaveSession(id, p, g.sessions);
      ghost var states, dogs := States(), DogObjects();
      var k := p.session.m.id;
      onMap := onMap[k := Get(onMap, k) - {id}];
      nameToId := nameToId - {p.name};
      assert DogObjects() == dogs;
      assert States() == states;
    }

    /** A player's session is filed under its map, and no other session is that object. */
    lemma HomeOf(id: nat, p: PlayerRef)
      requires Valid() && id in tokens.players && tokens.players[id] == p
      ensures p.session.m.id in sessions && sessions[p.session.m.id] == p.session && States().Keys == sessions.Keys
      ensures forall j :: j in sessions && j != p.session.m.id ==> sessions[j] != p.session
      ensures forall j :: j in sessions ==> States()[j] == sessions[j].State()
    {
    }

    lemma PlayerIsPlain(id: nat)
      requires id in tokens.players
      ensures id in tokens.State().players && tokens.State().players[id] == Plain(tokens.players[id])
    {
    }

    /** A player's dog on the heap is the dog of the plain value. */
    lemma DogIsPlain(id: nat)
      requires Valid() && M.GameInv(State()) && id in tokens.players
      ensures R.HasDogState(State(), id) && R.DogOf(State(), id) == tokens.players[id].dog.State()
    {
    }

    lemma PlayersArePlain(id: nat)
      ensures id in tokens.players <==> id in State().tokens.players
    {
    }

    /** The ids of the idle players, for the players outside `todo`. */
    ghost predicate AfkSoFar(limitMs: nat, ids: seq<nat>, todo: set<nat>)
      reads tokens, set id | id in tokens.players :: tokens.players[id].dog
    {
      && (forall id :: id in ids <==> id in tokens.players && id !in todo && tokens.players[id].dog.afkTime >= limitMs)
      && (forall i, j :: 0 <= i < j < |ids| ==> ids[i] != ids[j])
    }

    lemma AfkSoFarIsList(limitMs: nat, ids: seq<nat>)
      requires Valid() && M.GameInv(State()) && AfkSoFar(limitMs, ids, {})
      ensures R.IsAfkList(State(), limitMs, ids)
    {
      hide GameSession.State, States, SessionsValid, PlayersValid, PlayerTokens.State, M.GameInv;
      forall id ensures id in ids <==> R.HasDogState(State(), id) && IsAfk(R.DogOf(State(), id), limitMs) {
        PlayersArePlain(id);
        if id in tokens.players {
          DogIsPlain(id);
        }
      }
    }

    /** The first loop: who has been idle for the limit. */
    method AfkPlayers(limitMs: nat) returns (ids: seq<nat>)
      requires Valid() && M.GameInv(State())
      ensures R.IsAfkList(State(), limitMs, ids)
    {
      hide GameSession.State, States, SessionsValid, PlayersValid, PlayerTokens.State, M.GameInv;
      ids := [];
      var todo := tokens.players.Keys;
      while todo != {}
        invariant todo <= tokens.players.Keys && AfkSoFar(limitMs, ids, todo)
        decreases todo
      {
        var id :| id in todo;
        assert id !in ids;
        if tokens.players[id].dog.afkTime >= limitMs {
          ids := ids + [id];
        }
        todo := todo - {id};
      }
      AfkSoFarIsList(limitMs, ids);
    }

    /** The second loop's body: one more of the idle players is put on record and leaves. */
    method RetireNext(limitMs: nat, ghost g: M.Game, ids: seq<nat>, i: nat) returns (record: Record)
      requires Valid() && M.GameInv(g) && R.IsAfkList(g, limitMs, ids) && i < |ids|
      requires State() == R.AfterRetireAll(g, ids[..i])
      modifies this`nameToId, this`onMap, tokens, sessions.Values`dogs, sessions.Values`history
      ensures Valid() && State() == R.AfterRetireAll(g, ids[..i + 1])
      ensures IsRecord(record, g, ids[i])
    {
      hide GameSession.State, States, SessionsValid, PlayersValid, PlayerTokens.State, M.GameInv, R.IsAfkList,
        R.AfterRetireAll, M.AfterRetire;
      var id := ids[i];
      StillThere(g, limitMs, ids, i);
      PlayersArePlain(id);
      DogIsPlain(id);
      HomeOf(id, tokens.players[id]);
      M.PlayersHaveDogs(g, id);
      var dog := tokens.players[id].dog;
      record := Record(dog.name, dog.score, dog.liveTime);
      RetireOne(id);
    }

    /** Idle players are put on record as they are, and leave. */
    method RemoveAfkPlayers(limitMs: nat) returns (records: seq<Record>, ids: seq<nat>)
      requires Valid() && M.GameInv(State())
      modifies this`nameToId, this`onMap, tokens, sessions.Values`dogs, sessions.Values`history
      ensures Valid() && R.IsAfkList(old(State()), limitMs, ids) && State() == R.AfterRetireAll(old(State()), ids)
      ensures AreRecords(records, old(State()), ids) && |records| == |ids|
      ensures forall i :: 0 <= i < |ids| ==>
          && R.HasDogState(old(State()), ids[i])
          && records[i].name == old(State()).tokens.players[ids[i]].name
          && records[i].score == R.DogOf(old(State()), ids[i]).score
          && records[i].playTimeMs == R.DogOf(old(State()), ids[i]).liveTime
    {
      hide GameSession.State, States, SessionsValid, PlayersValid, PlayerTokens.State, M.GameInv, R.IsAfkList,
        M.AfterRetire, AreRecords;
      ghost var g := State();
      ids := AfkPlayers(limitMs);
      hide R.AfterRetireAll;
      records := [];
      assert DogObjects() == old(DogObjects());
      assert States() == old(States());
      assert State() == g && ids[..0] == [];
      NobodyRetires(g);
      NoRecords(g);
      for i := 0 to |ids|
        invariant Valid() && State() == R.AfterRetireAll(g, ids[..i]) && AreRecords(records, g, ids[..i])
        invariant sessions == old(sessions)
      {
        var record := RetireNext(limitMs, g, ids, i);
        OneMoreRecord(records, g, ids, i, record);
        records := records + [record];
      }
      assert ids[..|ids|] == ids;
      RecordsInFields(records, g, ids);
    }

    // -------------------------------------------------------------------------------------------
    // Restoring

    /** One object comes back to a session. */
    method RestoreLoot(k: MapId, session: GameSession, r: S.LootRepr)
      requires Valid() && k in sessions && sessions[k] == session
      modifies this`nextLoot, session`lost, session`history
      ensures Valid() && session.State() == AfterAddLoot(old(session.State()), S.RestoreLoot(r))
      ensures State() == M.PutSession(old(State()), k, session.State()).(nextLoot := S.Bump(old(nextLoot), r.id))
    {
      hide GameSession.State, States, SessionsValid, PlayersValid, PlayerTokens.State, AfterAddLoot;
      FiledOnce(k);
      session.AddLoot(S.RestoreLoot(r));
      forall j | j in sessions && j != k ensures sessions[j].State() == old(sessions[j].State()) {
        Untouched(sessions[j]);
      }
      OneSessionPut(k, session);
      SetNextLoot(S.Bump(nextLoot, r.id));
    }

    /** The state after i of the objects of a saved session are back. */
    static function LootsBack(g: M.Game, k: MapId, rs: seq<S.LootRepr>): M.Game {
      M.PutSession(g, k, AfterAddLoots(M.SessionOf(g, k), S.RestoredLoots(rs))).(nextLoot := S.BumpAll(g.nextLoot, rs))
    }

    static lemma LootsBackOneMore(g: M.Game, k: MapId, rs: seq<S.LootRepr>, i: nat)
      requires i < |rs|
      ensures LootsBack(g, k, rs[..i + 1]) ==
              M.PutSession(LootsBack(g, k, rs[..i]), k,
                  AfterAddLoot(LootsBack(g, k, rs[..i]).sessions[k], S.RestoreLoot(rs[i])))
                .(nextLoot := S.Bump(LootsBack(g, k, rs[..i]).nextLoot, rs[i].id))
    {
      var now, next := rs[..i], rs[..i + 1];
      assert next[..i] == now;
      assert S.RestoredLoots(next)[..i] == S.RestoredLoots(now);
      assert S.RestoredLoots(next)[i] == S.RestoreLoot(rs[i]);
    }

    static lemma UnknownMap(g: M.Game, r: S.SessionRepr)
      requires r.mapId !in g.maps
      ensures S.RestoreSession(g, r) == Err(S.MapNotFound)
    {
    }

    /** At first nothing is back, but the session exists; in the end everything is. */
    static lemma FirstAndLastBack(g: M.Game, r: S.SessionRepr)
      requires r.mapId in g.maps
      ensures LootsBack(g, r.mapId, r.lost[..0]) == M.PutSession(g, r.mapId, M.SessionOf(g, r.mapId))
      ensures r.mapId in g.sessions ==> M.PutSession(g, r.mapId, g.sessions[r.mapId]) == g
      ensures S.RestoreSession(g, r) == Ok(LootsBack(g, r.mapId, r.lost[..|r.lost|]))
    {
      assert r.lost[..|r.lost|] == r.lost && r.lost[..0] == [];
    }

    method RestoreSession(r: S.SessionRepr) returns (ok: bool)
      requires Valid()
      modifies this`sessions, this`nextLoot, sessions.Values`lost, sessions.Values`history
      ensures Valid() && tokens.players == old(tokens.players)
      ensures forall k :: k in sessions ==>
          sessions[k].dogs == if k in old(sessions) then old(sessions[k].dogs) else map[]
      ensures forall k :: k in sessions ==>
          fresh(sessions[k]) || (k in old(sessions) && sessions[k] == old(sessions)[k])
      ensures match S.RestoreSession(old(State()), r)
              case Ok(h) => ok && State() == h
              case Err(_) => !ok && State() == old(State())
    {
      hide GameSession.State, States, SessionsValid, PlayersValid, PlayerTokens.State, LootsBack, S.RestoreSession;
      var k := r.mapId;
      ghost var g := State();
      if k !in maps {
        UnknownMap(g, r);
        return false;
      }
      var found := FindSession(k, true);
      var session := found.value;
      SessionInState(k);
      FirstAndLastBack(g, r);
      ghost var filed, dogs := sessions, session.dogs;
      for i := 0 to |r.lost|
        invariant Valid() && sessions == filed && session.dogs == dogs && k in sessions && sessions[k] == session
        invariant State() == LootsBack(g, k, r.lost[..i])
      {
        SessionInState(k);
        LootsBackOneMore(g, k, r.lost, i);
        RestoreLoot(k, session, r.lost[i]);
      }
      ok := true;
    }

    /** No session has a dog outside these ids. */
    ghost predicate DogsAmong(ids: set<nat>)
      reads this`sessions, sessions.Values`dogs
    {
      forall k :: k in sessions ==> sessions[k].dogs.Keys <= ids
    }

    /** A restored dog joins its session.  If `sound`, no dog had its id, and the players stay in order. */
    method AddRestoredDog(k: MapId, session: GameSession, dog: Dog, ghost ids: set<nat>, ghost sound: bool)
      requires ValidIf(sound) && k in sessions && sessions[k] == session && dog.home == k
      requires sound ==> DogsAmong(ids) && dog.id !in ids
      modifies session`dogs
      ensures ValidIf(sound) && dog.id in session.dogs && session.dogs[dog.id] == dog
      ensures sound ==> DogsAmong(ids + {dog.id})
      ensures State() == M.PutSession(old(State()), k, AfterAddDog(old(session.State()), dog.State()))
    {
      FiledOnce(k);
      hide GameSession.State, States, PlayerTokens.State;
      session.AddDog(dog);
      assert SessionsValid();
      hide SessionsValid;
      if sound {
        forall id | id in tokens.players ensures Placed(id, tokens.players[id]) {
          assert old(Placed(id, tokens.players[id]));
        }
      }
      hide PlayersValid;
      forall j | j in sessions && j != k ensures sessions[j].State() == old(sessions[j].State()) {
        Untouched(sessions[j]);
      }
      OneSessionPut(k, session);
    }

    /** The session of a restored player, with the dog. */
    method RestoreDogOn(r: S.PlayerRepr, dog: Dog, ghost ids: set<nat>, ghost sound: bool)
      returns (session: GameSession)
      requires ValidIf(sound) && r.mapId in maps && dog.home == r.mapId
      requires sound ==> DogsAmong(ids) && dog.id !in ids
      modifies this`sessions, sessions.Values`dogs
      ensures forall k :: k in sessions ==>
          fresh(sessions[k]) || (k in old(sessions) && sessions[k] == old(sessions)[k])
      ensures ValidIf(sound) && (sound ==> DogsAmong(ids + {dog.id}))
      ensures r.mapId in sessions && sessions[r.mapId] == session && session.m.id == r.mapId
      ensures dog.id in session.dogs && session.dogs[dog.id] == dog
      ensures State() == M.PutSession(old(State()), r.mapId,
          AfterAddDog(M.SessionOf(old(State()), r.mapId), dog.State()))
    {
      hide GameSession.State, States, ValidIf, PlayerTokens.State, AfterAddDog;
      var found := FindSession(r.mapId, sound);
      session := found.value;
      assert sound ==> DogsAmong(ids);
      AddRestoredDog(r.mapId, session, dog, ids, sound);
    }

    /** A restored dog joins its session, and its player the indexes. */
    method Readmit(r: S.PlayerRepr, token: Token, dog: Dog, ghost ids: set<nat>, ghost sound: bool)
      requires ValidIf(sound) && r.mapId in maps && dog.home == r.mapId
      requires sound ==> DogsAmong(ids) && dog.id !in ids
      modifies this, tokens, sessions.Values`dogs
      ensures forall k :: k in sessions ==>
          fresh(sessions[k]) || (k in old(sessions) && sessions[k] == old(sessions)[k])
      ensures ValidIf(sound) && (sound ==> DogsAmong(ids + {dog.id}))
      ensures State() == S.Readmitted(old(State()), r, token, dog.State())
    {
      hide GameSession.State, States, ValidIf, PlayerTokens.State, AfterAddDog, S.BumpAll, WithPlayer;
      var session := RestoreDogOn(r, dog, ids, sound);
      FilePlayer(PlayerRef(r.id, r.name, session, dog), token, sound);
      SetCounters(S.Bump(nextPlayer, r.id), S.Bump(nextDog, dog.id), S.BumpAll(nextLoot, r.dog.bag), sound);
    }

    /** A saved player comes back with its dog; false stands for the exceptions. */
    method RestorePlayer(id: nat, rs: S.TokensRepr, ghost ids: set<nat>, ghost sound: bool) returns (ok: bool)
      requires ValidIf(sound) && id in rs.players
      requires sound ==> DogsAmong(ids) && rs.players[id].dog.id !in ids
      modifies this, tokens, sessions.Values`dogs
      ensures forall k :: k in sessions ==>
          fresh(sessions[k]) || (k in old(sessions) && sessions[k] == old(sessions)[k])
      ensures match S.RestorePlayer(old(State()), id, rs)
              case Ok(h) =>
                ok && State() == h && ValidIf(sound) && (sound ==> DogsAmong(ids + {rs.players[id].dog.id}))
              case Err(_) => !ok
    {
      hide GameSession.State, States, ValidIf, PlayerTokens.State, S.RestoreDog, S.Readmitted, DogsAmong;
      var r := rs.players[id];
      if id !in rs.tokens || r.mapId !in maps {
        return false;
      }
      var restored := DogFiles.Restore(r.dog, r.mapId);
      if restored.Err? {
        return false;
      }
      S.RestoredDogKeepsId(r.dog);
      assert DogObjects() == old(DogObjects());
      assert States() == old(States());
      Readmit(r, rs.tokens[id], restored.value, ids, sound);
      ok := true;
    }

    /** The first loop: sessions with their lost objects. */
    method RestoreSessions(rs: seq<S.SessionRepr>) returns (ok: bool)
      requires Valid() && sessions == map[]
      modifies this`sessions, this`nextLoot
      ensures forall k :: k in sessions ==> fresh(sessions[k])
      ensures ok == S.RestoreSessions(old(State()), rs).Ok?
      ensures ok ==> Valid() && State() == S.RestoreSessions(old(State()), rs).value && DogsAmong({})
    {
      hide GameSession.State, States, SessionsValid, PlayersValid, PlayerTokens.State, S.RestoreSession;
      ghost var g := State();
      NothingRestored(g, rs);
      for i := 0 to |rs|
        invariant Valid() && DogsAmong({}) && forall k :: k in sessions ==> fresh(sessions[k])
        invariant S.RestoreSessions(g, rs[..i]) == Ok(State())
      {
        SessionsOneMore(g, rs, i);
        ok := RestoreSession(rs[i]);
        if !ok {
          FailureStays(g, rs, i + 1);
          return;
        }
      }
      ok := true;
    }

    /** The second loop: players with their dogs, in the order `ids`. */
    method RestorePlayers(rs: S.TokensRepr) returns (ok: bool, ghost ids: seq<nat>)
      requires Valid() && DogsAmong({})
      modifies this, tokens, sessions.Values`dogs
      ensures Enumerates(ids, rs.players)
      ensures ok == S.RestorePlayers(old(State()), ids, rs).Ok?
      ensures ok ==> State() == S.RestorePlayers(old(State()), ids, rs).value && ValidIf(S.DogsDiffer(rs))
    {
      hide GameSession.State, States, SessionsValid, PlayersValid, PlayerTokens.State, S.RestorePlayer, S.DogsDiffer;
      ghost var g, sound := State(), S.DogsDiffer(rs);
      var order := Keys(rs.players);
      ids := order;
      PlayersInOrder(order, rs);
      assert DogObjects() == old(DogObjects());
      assert States() == old(States()) && order[..0] == [];
      hide ValidIf;
      ghost var used: set<nat> := {};
      for i := 0 to |order|
        invariant ValidIf(sound) && (sound ==> DogsAmong(used) && used == DogIds(rs, order[..i]))
        invariant forall k :: k in sessions ==>
            fresh(sessions[k]) || (k in old(sessions) && sessions[k] == old(sessions)[k])
        invariant S.RestorePlayers(g, order[..i], rs) == Ok(State())
      {
        PlayersOneMore(g, order, rs, i);
        if sound {
          DogIdsOneMore(order, rs, i);
        }
        ok := RestorePlayer(order[i], rs, used, sound);
        if !ok {
          PlayerFailureStays(g, order, rs, i + 1);
          return;
        }
        used := used + {rs.players[order[i]].dog.id};
      }
      assert order[..|order|] == order;
      ok := true;
    }

    /** Restores into a game without sessions.  False stands for the exceptions, after which nothing is promised.
        If two saved players have dogs of one id, the second dog takes the place of the first in the session, and
        the first player's dog is in no session. */
    method RestoreGame(r: S.GameRepr) returns (ok: bool, ghost ids: seq<nat>)
      requires Valid() && sessions == map[]
      modifies this, tokens
      ensures Enumerates(ids, r.tokens.players)
      ensures ok == S.RestoreGame(old(State()), r, ids).Ok?
      ensures ok ==> State() == S.RestoreGame(old(State()), r, ids).value && ValidIf(S.DogsDiffer(r.tokens))
    {
      hide GameSession.State, States, SessionsValid, PlayersValid, PlayerTokens.State, S.RestoreSessions,
        S.RestorePlayers, DogsAmong, ValidIf, S.DogsDiffer;
      ok := RestoreSessions(r.sessions);
      if !ok {
        var order := Keys(r.tokens.players);
        ids := order;
        return;
      }
      ok, ids := RestorePlayers(r.tokens);
    }
  }

  /** A dog comes to an office with an empty slot, in some order of a session's gather events. */
  ghost predicate ReachesOfficeEmpty(m: GameMap, s: Session, deltaMs: nat, hits: seq<Hit>) {
    var moved := Moved(m, s, deltaMs);
    AreHits(m, moved, hits) && DogsPresent(moved, hits) && FaultsBefore(moved, hits, |hits|)
  }

  lemma SessionFaultedIff(m: GameMap, s: Session, deltaMs: nat, hits: seq<Hit>)
    requires SessionInv(m, s)
    ensures Game.SessionFaulted(m, s, deltaMs, hits) <==> ReachesOfficeEmpty(m, s, deltaMs, hits)
  {
    hide Moved, FaultsBefore, AreHits, Replay;
    if AreHits(m, Moved(m, s, deltaMs), hits) {
      TickFaultIff(m, s, deltaMs, hits);
    }
  }

  /** The ticks of a game can fault exactly when in some session some dog can come to an office with an empty slot. */
  lemma TickFaultedIff(g: M.Game, deltaMs: nat)
    requires M.GameInv(g)
    ensures Game.TickFaulted(g, deltaMs) <==>
            exists k, hits :: k in g.sessions && k in g.maps &&
                ReachesOfficeEmpty(g.maps[k], g.sessions[k], deltaMs, hits)
  {
    hide Game.SessionFaulted, ReachesOfficeEmpty, SessionInv, IndexInv, M.CountersInv;
    forall k, hits | k in g.sessions && k in g.maps
      ensures Game.SessionFaulted(g.maps[k], g.sessions[k], deltaMs, hits)
              <==> ReachesOfficeEmpty(g.maps[k], g.sessions[k], deltaMs, hits)
    {
      SessionFaultedIff(g.maps[k], g.sessions[k], deltaMs, hits);
    }
  }

  lemma NothingRestored(g: M.Game, rs: seq<S.SessionRepr>)
    ensures S.RestoreSessions(g, rs[..0]) == Ok(g) && S.RestoreSessions(g, rs[..|rs|]) == S.RestoreSessions(g, rs)
  {
    assert rs[..0] == [] && rs[..|rs|] == rs;
  }

  lemma SessionsOneMore(g: M.Game, rs: seq<S.SessionRepr>, i: nat)
    requires i < |rs| && S.RestoreSessions(g, rs[..i]).Ok?
    ensures S.RestoreSessions(g, rs[..i + 1]) == S.RestoreSession(S.RestoreSessions(g, rs[..i]).value, rs[i])
  {
    assert rs[..i + 1][..i] == rs[..i];
  }

  lemma {:induction false} FailureStays(g: M.Game, rs: seq<S.SessionRepr>, i: nat)
    requires i <= |rs| && S.RestoreSessions(g, rs[..i]).Err?
    ensures S.RestoreSessions(g, rs).Err?
    decreases |rs|
  {
    assert rs[..|rs|] == rs;
    if i < |rs| {
      assert rs[..|rs| - 1][..i] == rs[..i];
      FailureStays(g, rs[..|rs| - 1], i);
    }
  }

  function DogIds(rs: S.TokensRepr, ids: seq<nat>): set<nat>
    requires forall id :: id in ids ==> id in rs.players
  {
    set id | id in ids :: rs.players[id].dog.id
  }

  lemma PlayersInOrder(ids: seq<nat>, rs: S.TokensRepr)
    requires Enumerates(ids, rs.players)
    ensures forall i :: 0 <= i < |ids| ==> ids[i] in rs.players
  {
  }

  lemma PlayersOneMore(g: M.Game, ids: seq<nat>, rs: S.TokensRepr, i: nat)
    requires (forall id :: id in ids ==> id in rs.players) && i < |ids| && S.RestorePlayers(g, ids[..i], rs).Ok?
    ensures S.RestorePlayers(g, ids[..i + 1], rs) ==
        S.RestorePlayer(S.RestorePlayers(g, ids[..i], rs).value, ids[i], rs)
  {
    hide S.RestorePlayer;
    assert ids[..i + 1][..i] == ids[..i];
  }

  lemma DogIdsOneMore(ids: seq<nat>, rs: S.TokensRepr, i: nat)
    requires Enumerates(ids, rs.players) && i < |ids| && S.DogsDiffer(rs)
    ensures ids[i] in rs.players && rs.players[ids[i]].dog.id !in DogIds(rs, ids[..i])
    ensures DogIds(rs, ids[..i + 1]) == DogIds(rs, ids[..i]) + {rs.players[ids[i]].dog.id}
  {
  }

  lemma {:induction false} PlayerFailureStays(g: M.Game, ids: seq<nat>, rs: S.TokensRepr, i: nat)
    requires (forall id :: id in ids ==> id in rs.players) && i <= |ids| && S.RestorePlayers(g, ids[..i], rs).Err?
    ensures S.RestorePlayers(g, ids, rs).Err?
    decreases |ids|
  {
    assert ids[..|ids|] == ids;
    if i < |ids| {
      assert ids[..|ids| - 1][..i] == ids[..i];
      PlayerFailureStays(g, ids[..|ids| - 1], rs, i);
    }
  }

  lemma NobodyRetires(g: M.Game)
    ensures R.AfterRetireAll(g, []) == g
  {
  }

  /** While the idle players leave one by one, the ones to come are where they were. */
  lemma StillThere(g: M.Game, limitMs: nat, ids: seq<nat>, i: nat)
    requires M.GameInv(g) && R.IsAfkList(g, limitMs, ids) && i < |ids|
    ensures var h, id := R.AfterRetireAll(g, ids[..i]), ids[i];
            && M.GameInv(h) && R.HasDogState(h, id) && R.HasDogState(g, id) && R.DogOf(h, id) == R.DogOf(g, id)
            && R.AfterRetireAll(g, ids[..i + 1]) == M.AfterRetire(h, id)
  {
    hide M.GameInv, M.AfterRetire;
    var h, id := R.AfterRetireAll(g, ids[..i]), ids[i];
    R.AfkListMembers(g, limitMs, ids);
    R.RetireAllEffect(g, ids[..i]);
    R.InvHasTokens(g, id);
    R.InvHasTokens(h, id);
    assert R.OnlyLeft(g.sessions[g.tokens.players[id].mapId], h.sessions[g.tokens.players[id].mapId]);
    assert ids[..i + 1][..i] == ids[..i];
  }

  /** The session of a map with one new dog. */
  function WithNewDog(g: M.Game, name: string, k: MapId, spawn: Vec): Session
    requires k in g.maps
  {
    AfterAddDog(M.SessionOf(g, k), NewDog(g.nextDog, name, spawn, g.maps[k].bagCapacity))
  }

  /** Objects added session by session. */
  ghost function AfterLootLog(g: M.Game, log: seq<(MapId, seq<Loot>)>): M.Game {
    if log == [] then g
    else M.AfterNewLoot(AfterLootLog(g, log[..|log| - 1]), log[|log| - 1].0, log[|log| - 1].1)
  }

  /** Each batch is a fair draw for the session as it was then. */
  ghost predicate LogIsFair(g: M.Game, log: seq<(MapId, seq<Loot>)>, dice: MapId -> (int -> Roll)) {
    log == [] ||
    var front, last := log[..|log| - 1], log[|log| - 1];
    var h := AfterLootLog(g, front);
    LogIsFair(g, front, dice) && last.0 in h.sessions && last.0 in h.maps
      && FairDraw(h.maps[last.0], h.sessions[last.0], dice(last.0), h.nextLoot, last.1)
  }

  /** Fair batches, one for each of these maps. */
  ghost predicate IsLootLog(g: M.Game, log: seq<(MapId, seq<Loot>)>, dice: MapId -> (int -> Roll), done: set<MapId>) {
    && LogIsFair(g, log, dice)
    && done == (set i | 0 <= i < |log| :: log[i].0)
    && forall i, j :: 0 <= i < j < |log| ==> log[i].0 != log[j].0
  }

  /** Each batch is as large as the clock, the objects and the dogs of its session make it. */
  ghost predicate AreBatches(g: M.Game, log: seq<(MapId, seq<Loot>)>, q: real, clocks: map<MapId, nat>, deltaMs: nat,
      random: real)
  {
    forall i :: 0 <= i < |log| ==>
      && log[i].0 in g.maps && log[i].0 in clocks
      && IsBatch(g.maps[log[i].0], M.SessionOf(g, log[i].0), q, clocks[log[i].0] + deltaMs, random, |log[i].1|)
  }

  lemma {:induction false} LogLeavesOthers(g: M.Game, log: seq<(MapId, seq<Loot>)>, k: MapId)
    requires forall i :: 0 <= i < |log| ==> log[i].0 != k
    ensures AfterLootLog(g, log).maps == g.maps && M.SessionOf(AfterLootLog(g, log), k) == M.SessionOf(g, k)
  {
    if log != [] {
      LogLeavesOthers(g, log[..|log| - 1], k);
    }
  }

  lemma OneMoreBatch(g: M.Game, log: seq<(MapId, seq<Loot>)>, h: M.Game, k: MapId, drawn: seq<Loot>,
      dice: MapId -> (int -> Roll), done: set<MapId>, q: real, clocks: map<MapId, nat>, deltaMs: nat, random: real)
    requires h == AfterLootLog(g, log) && IsLootLog(g, log, dice, done) && k !in done && k in h.maps && k in clocks
    requires AreBatches(g, log, q, clocks, deltaMs, random)
    requires IsBatch(h.maps[k], M.SessionOf(h, k), q, clocks[k] + deltaMs, random, |drawn|)
    ensures AreBatches(g, log + [(k, drawn)], q, clocks, deltaMs, random)
  {
    hide AfterLootLog, IsLootLog, IsBatch, M.SessionOf;
    NotInLog(g, log, k, dice, done);
    LogLeavesOthers(g, log, k);
    var longer := log + [(k, drawn)];
    assert longer[|log|] == (k, drawn) && forall i :: 0 <= i < |log| ==> longer[i] == log[i];
  }

  lemma NotInLog(g: M.Game, log: seq<(MapId, seq<Loot>)>, k: MapId, dice: MapId -> (int -> Roll), done: set<MapId>)
    requires IsLootLog(g, log, dice, done) && k !in done
    ensures forall i :: 0 <= i < |log| ==> log[i].0 != k
  {
    hide LogIsFair;
    assert forall i :: 0 <= i < |log| ==> log[i].0 in done;
  }

  lemma EmptyLog(g: M.Game, dice: MapId -> (int -> Roll))
    ensures AfterLootLog(g, []) == g && IsLootLog(g, [], dice, {})
  {
  }

  lemma LongerLog(g: M.Game, log: seq<(MapId, seq<Loot>)>, h: M.Game, k: MapId, drawn: seq<Loot>,
      dice: MapId -> (int -> Roll), done: set<MapId>)
    requires h == AfterLootLog(g, log) && IsLootLog(g, log, dice, done) && k !in done && k in h.sessions && k in h.maps
    requires FairDraw(h.maps[k], h.sessions[k], dice(k), h.nextLoot, drawn)
    ensures AfterLootLog(g, log + [(k, drawn)]) == M.AfterNewLoot(h, k, drawn)
    ensures IsLootLog(g, log + [(k, drawn)], dice, done + {k})
  {
    hide FairDraw, M.AfterNewLoot;
    var longer := log + [(k, drawn)];
    assert longer[..|log|] == log;
    assert longer[|log|].0 == k && forall i :: 0 <= i < |log| ==> longer[i] == log[i] && log[i].0 in done;
  }

  /** The dice show places within the roads. */
  ghost predicate DiceInRange(dice: int -> Roll) {
    forall i :: 0.0 <= dice(i).fx <= 1.0 && 0.0 <= dice(i).fy <= 1.0
  }

  /** What a fair draw brings lies on the roads and is new loot in the sense of the runs of the game. */
  lemma FairDrawIsNewLoot(m: GameMap, s: Session, dice: int -> Roll, first: nat, drawn: seq<Loot>)
    requires FairDraw(m, s, dice, first, drawn) && DiceInRange(dice)
    ensures M.NewLoots(m, drawn, first)
    ensures forall i :: 0 <= i < |drawn| ==> OnSomeRoad(m.roads, drawn[i].position)
  {
    forall i | 0 <= i < |drawn|
      ensures drawn[i].id == first + i && OnSomeRoad(m.roads, drawn[i].position) && LootKnown(drawn[i], m.lootValues)
    {
      assert drawn[i] == Drawn(m, dice(i), first + i);
      DrawnLootIsPlaced(m, dice(i), first + i);
    }
  }

  /** A player who joins the game object takes a step of the runs. */
  lemma JoiningIsAStep(g: M.Game, limitMs: nat, name: string, k: MapId, spawn: Vec, token: Token, dice: int -> Roll,
      drawn: seq<Loot>)
    requires k in g.maps && name !in g.nameToId && token !in g.tokens.toId && DiceInRange(dice)
    requires FairDraw(g.maps[k], WithNewDog(g, name, k, spawn), dice, g.nextLoot, drawn)
    ensures R.Legal(g, limitMs, R.Join(name, k, spawn, token, drawn))
    ensures R.After(g, limitMs, R.Join(name, k, spawn, token, drawn)) == M.AfterJoin(g, name, k, spawn, token, drawn)
  {
    FairDrawIsNewLoot(g.maps[k], WithNewDog(g, name, k, spawn), dice, g.nextLoot, drawn);
  }

  function LootSteps(log: seq<(MapId, seq<Loot>)>): seq<R.Step> {
    seq(|log|, i requires 0 <= i < |log| => R.NewLoot(log[i].0, log[i].1))
  }

  /** A batch of a fair log is a step of the runs. */
  lemma BatchIsAStep(h: M.Game, limitMs: nat, k: MapId, dice: int -> Roll, drawn: seq<Loot>)
    requires k in h.sessions && k in h.maps && DiceInRange(dice)
    requires FairDraw(h.maps[k], h.sessions[k], dice, h.nextLoot, drawn)
    ensures R.Legal(h, limitMs, R.NewLoot(k, drawn))
    ensures R.After(h, limitMs, R.NewLoot(k, drawn)) == M.AfterNewLoot(h, k, drawn)
  {
  }

  /** Generating loot in all sessions is a run of one step for each session. */
  lemma {:induction false} GeneratingIsARun(g: M.Game, limitMs: nat, log: seq<(MapId, seq<Loot>)>,
      dice: MapId -> (int -> Roll))
    returns (run: seq<M.Game>)
    requires M.GameInv(g) && LogIsFair(g, log, dice) && forall k: MapId :: DiceInRange(dice(k))
    ensures R.IsRun(run, limitMs, LootSteps(log)) && run[0] == g && run[|log|] == AfterLootLog(g, log)
  {
    hide M.GameInv, FairDraw, M.AfterNewLoot, R.Legal, R.After, DiceInRange;
    if log == [] {
      run := [g];
    } else {
      var front, last := log[..|log| - 1], log[|log| - 1];
      var before := GeneratingIsARun(g, limitMs, front, dice);
      BatchIsAStep(AfterLootLog(g, front), limitMs, last.0, dice(last.0), last.1);
      R.RunOneMore(before, limitMs, LootSteps(front), R.NewLoot(last.0, last.1));
      run := before + [M.AfterNewLoot(AfterLootLog(g, front), last.0, last.1)];
      hide R.IsRun;
      assert LootSteps(log) == LootSteps(front) + [R.NewLoot(last.0, last.1)];
    }
  }
}
