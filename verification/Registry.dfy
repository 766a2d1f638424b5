/**
  The redundant indexes of players: by token, by id, by name and by map, together with the names of the dogs in
  each session.  One invariant ties them together, and joining and retiring keep it.
 */
module Registry {
  import opened Wrappers

  type MapId = string
  type Token = string

  datatype Player = Player(id: nat, name: string, mapId: MapId, dogId: nat)

  datatype Tokens = Tokens(toId: map<Token, nat>, players: map<nat, Player>, ofId: map<nat, Token>)

  /** dogNames gives, for each session, the names of its dogs by dog id. */
  datatype Index = Index(
    tokens: Tokens,
    nameToId: map<string, nat>,
    onMap: map<MapId, set<nat>>,
    dogNames: map<MapId, map<nat, string>>)

  const NO_TOKENS := Tokens(map[], map[], map[])

  /** Inserts unless the key is taken. */
  function Emplace<K, V>(m: map<K, V>, k: K, v: V): map<K, V> {
    if k in m then m else m[k := v]
  }

  function WithPlayer(t: Tokens, p: Player, token: Token): Tokens {
    Tokens(Emplace(t.toId, token, p.id), t.players[p.id := p], Emplace(t.ofId, p.id, token))
  }

  function WithoutPlayer(t: Tokens, id: nat): Tokens
    requires id in t.ofId
  {
    Tokens(t.toId - {t.ofId[id]}, t.players - {id}, t.ofId - {id})
  }

  function Get<V>(m: map<MapId, set<V>>, k: MapId): set<V> {
    if k in m then m[k] else {}
  }

  function DogsOf(x: Index, k: MapId): map<nat, string> {
    if k in x.dogNames then x.dogNames[k] else map[]
  }

  /** A player and its dog come in. */
  function Joined(x: Index, p: Player, token: Token): Index {
    Index(WithPlayer(x.tokens, p, token),
          x.nameToId[p.name := p.id],
          x.onMap[p.mapId := Get(x.onMap, p.mapId) + {p.id}],
          x.dogNames[p.mapId := DogsOf(x, p.mapId)[p.dogId := p.name]])
  }

  /** A player and its dog leave. */
  function Retired(x: Index, id: nat): Index
    requires id in x.tokens.players && id in x.tokens.ofId
  {
    var p := x.tokens.players[id];
    Index(WithoutPlayer(x.tokens, id),
          x.nameToId - {p.name},
          x.onMap[p.mapId := Get(x.onMap, p.mapId) - {id}],
          x.dogNames[p.mapId := DogsOf(x, p.mapId) - {p.dogId}])
  }

  // ---------------------------------------------------------------------------------------------
  // Invariant

  /** Tokens and ids are inverse to each other, over the same players. */
  ghost predicate TokensInv(t: Tokens) {
    && (forall k :: k in t.toId ==> t.toId[k] in t.ofId && t.ofId[t.toId[k]] == k)
    && (forall id :: id in t.ofId ==> t.ofId[id] in t.toId && t.toId[t.ofId[id]] == id)
    && t.players.Keys == t.ofId.Keys
    && (forall id :: id in t.players ==> t.players[id].id == id)
  }

  /** The name index is exactly the inverse of the players' names. */
  ghost predicate NamesInv(players: map<nat, Player>, nameToId: map<string, nat>) {
    && (forall id :: id in players ==> players[id].name in nameToId && nameToId[players[id].name] == id)
    && (forall n :: n in nameToId ==> nameToId[n] in players && players[nameToId[n]].name == n)
  }

  /** The id sets of the maps partition the players by their session's map. */
  ghost predicate MapsInv(players: map<nat, Player>, onMap: map<MapId, set<nat>>) {
    && (forall id :: id in players ==> players[id].mapId in onMap && id in onMap[players[id].mapId])
    && (forall k, id :: k in onMap && id in onMap[k] ==> id in players && players[id].mapId == k)
  }

  ghost predicate HasDog(p: Player, dogNames: map<MapId, map<nat, string>>) {
    p.mapId in dogNames && p.dogId in dogNames[p.mapId] && dogNames[p.mapId][p.dogId] == p.name
  }

  /** The dog belongs to the player of its name. */
  ghost predicate HasPlayer(players: map<nat, Player>, nameToId: map<string, nat>, k: MapId, dog: nat, name: string) {
    && name in nameToId && nameToId[name] in players
    && players[nameToId[name]].mapId == k && players[nameToId[name]].dogId == dog
  }

  /** Every session holds exactly the dogs of its players, and no two players share one. */
  ghost predicate DogsInv(x: Index) {
    && (forall id :: id in x.tokens.players ==> HasDog(x.tokens.players[id], x.dogNames))
    && (forall k, dog :: k in x.dogNames && dog in x.dogNames[k] ==>
          HasPlayer(x.tokens.players, x.nameToId, k, dog, x.dogNames[k][dog]))
    && (forall i, j :: i in x.tokens.players && j in x.tokens.players && i != j ==>
          x.tokens.players[i].dogId != x.tokens.players[j].dogId)
  }

  ghost predicate IndexInv(x: Index) {
    && TokensInv(x.tokens)
    && NamesInv(x.tokens.players, x.nameToId)
    && MapsInv(x.tokens.players, x.onMap)
    && DogsInv(x)
  }

  /** Nothing about the newcomer is known yet: not its id, name, token or dog. */
  ghost predicate New(x: Index, p: Player, token: Token) {
    && p.id !in x.tokens.players && p.name !in x.nameToId && token !in x.tokens.toId
    && (forall k :: k in x.dogNames ==> p.dogId !in x.dogNames[k])
  }

  lemma JoinKeepsTokens(t: Tokens, p: Player, token: Token)
    requires TokensInv(t) && p.id !in t.players && token !in t.toId
    ensures TokensInv(WithPlayer(t, p, token))
  {
  }

  lemma JoinKeepsNames(x: Index, p: Player, token: Token)
    requires NamesInv(x.tokens.players, x.nameToId) && New(x, p, token)
    ensures NamesInv(Joined(x, p, token).tokens.players, Joined(x, p, token).nameToId)
  {
  }

  lemma JoinKeepsMaps(x: Index, p: Player, token: Token)
    requires MapsInv(x.tokens.players, x.onMap) && New(x, p, token)
    ensures MapsInv(Joined(x, p, token).tokens.players, Joined(x, p, token).onMap)
  {
  }

  lemma JoinedHaveDogs(x: Index, p: Player, token: Token)
    requires DogsInv(x) && New(x, p, token)
    ensures var y := Joined(x, p, token);
            forall id :: id in y.tokens.players ==> HasDog(y.tokens.players[id], y.dogNames)
  {
    var y := Joined(x, p, token);
    forall id | id in y.tokens.players ensures HasDog(y.tokens.players[id], y.dogNames) {
      assert id != p.id ==> HasDog(x.tokens.players[id], x.dogNames);
    }
  }

  lemma JoinedHavePlayers(x: Index, p: Player, token: Token)
    requires DogsInv(x) && New(x, p, token)
    ensures var y := Joined(x, p, token);
            forall k, dog :: k in y.dogNames && dog in y.dogNames[k] ==>
              HasPlayer(y.tokens.players, y.nameToId, k, dog, y.dogNames[k][dog])
  {
    var y := Joined(x, p, token);
    forall k, dog | k in y.dogNames && dog in y.dogNames[k]
      ensures HasPlayer(y.tokens.players, y.nameToId, k, dog, y.dogNames[k][dog])
    {
      if !(k == p.mapId && dog == p.dogId) {
        assert HasPlayer(x.tokens.players, x.nameToId, k, dog, x.dogNames[k][dog]);
      }
    }
  }

  lemma JoinKeepsDogs(x: Index, p: Player, token: Token)
    requires DogsInv(x) && New(x, p, token)
    ensures DogsInv(Joined(x, p, token))
  {
    JoinedHaveDogs(x, p, token);
    JoinedHavePlayers(x, p, token);
    forall id | id in x.tokens.players ensures x.tokens.players[id].dogId != p.dogId {
      assert HasDog(x.tokens.players[id], x.dogNames);
    }
    hide HasDog, HasPlayer;
  }

  /** A newcomer with fresh id, name, token and dog keeps every index in step. */
  lemma JoinKeepsIndex(x: Index, p: Player, token: Token)
    requires IndexInv(x) && New(x, p, token)
    ensures IndexInv(Joined(x, p, token))
  {
    hide TokensInv, NamesInv, MapsInv, DogsInv;
    assert p.id !in x.tokens.players && token !in x.tokens.toId;
    JoinKeepsTokens(x.tokens, p, token);
    JoinKeepsNames(x, p, token);
    JoinKeepsMaps(x, p, token);
    JoinKeepsDogs(x, p, token);
  }

  /** The others keep their dogs. */
  lemma RetireLeavesDogs(x: Index, id: nat, other: nat)
    requires DogsInv(x) && id in x.tokens.players && id in x.tokens.ofId
    requires other in x.tokens.players && other != id
    ensures HasDog(x.tokens.players[other], Retired(x, id).dogNames)
  {
    assert HasDog(x.tokens.players[other], x.dogNames) && HasDog(x.tokens.players[id], x.dogNames);
  }

  /** A dog that stays has a player that stays. */
  lemma RetireLeavesPlayers(x: Index, id: nat, k: MapId, dog: nat, name: string)
    requires id in x.tokens.players && id in x.tokens.ofId
    requires var n := x.tokens.players[id].name; n in x.nameToId && x.nameToId[n] == id
    requires HasPlayer(x.tokens.players, x.nameToId, k, dog, name)
    requires k != x.tokens.players[id].mapId || dog != x.tokens.players[id].dogId
    ensures HasPlayer(Retired(x, id).tokens.players, Retired(x, id).nameToId, k, dog, name)
  {
  }

  lemma RetireKeepsDogs(x: Index, id: nat)
    requires DogsInv(x) && NamesInv(x.tokens.players, x.nameToId) && id in x.tokens.players && id in x.tokens.ofId
    ensures DogsInv(Retired(x, id))
  {
    hide HasDog, HasPlayer;
    var y := Retired(x, id);
    var p := x.tokens.players[id];
    assert p.name in x.nameToId && x.nameToId[p.name] == id;
    forall i | i in y.tokens.players ensures HasDog(y.tokens.players[i], y.dogNames) {
      RetireLeavesDogs(x, id, i);
    }
    forall k, dog | k in y.dogNames && dog in y.dogNames[k]
      ensures HasPlayer(y.tokens.players, y.nameToId, k, dog, y.dogNames[k][dog])
    {
      assert k != p.mapId || dog != p.dogId;
      RetireLeavesPlayers(x, id, k, dog, x.dogNames[k][dog]);
    }
  }

  lemma RetireKeepsTokensAndNames(x: Index, id: nat)
    requires TokensInv(x.tokens) && NamesInv(x.tokens.players, x.nameToId) && id in x.tokens.players
    ensures TokensInv(Retired(x, id).tokens)
    ensures NamesInv(Retired(x, id).tokens.players, Retired(x, id).nameToId)
  {
  }

  lemma RetireKeepsMaps(x: Index, id: nat)
    requires TokensInv(x.tokens) && MapsInv(x.tokens.players, x.onMap) && id in x.tokens.players
    ensures MapsInv(Retired(x, id).tokens.players, Retired(x, id).onMap)
  {
    var k := x.tokens.players[id].mapId;
    IdLeavesMap(x.tokens.players, x.onMap, id);
    assert Retired(x, id).onMap == x.onMap[k := Get(x.onMap, k) - {id}];
  }

  lemma IdLeavesMap(players: map<nat, Player>, onMap: map<MapId, set<nat>>, id: nat)
    requires MapsInv(players, onMap) && id in players
    ensures var k := players[id].mapId; MapsInv(players - {id}, onMap[k := Get(onMap, k) - {id}])
  {
  }

  /** A player who leaves takes its dog, token and name along and nothing else. */
  lemma RetireKeepsIndex(x: Index, id: nat)
    requires IndexInv(x) && id in x.tokens.players
    ensures id in x.tokens.ofId && IndexInv(Retired(x, id))
  {
    RetireKeepsDogs(x, id);
    RetireKeepsTokensAndNames(x, id);
    RetireKeepsMaps(x, id);
  }

  /** No two sessions, and no two players, have a dog with the same id. */
  lemma DogIdsAreGlobal(x: Index, k1: MapId, k2: MapId, dog: nat)
    requires IndexInv(x) && k1 in x.dogNames && k2 in x.dogNames && dog in x.dogNames[k1] && dog in x.dogNames[k2]
    ensures k1 == k2
  {
    assert HasPlayer(x.tokens.players, x.nameToId, k1, dog, x.dogNames[k1][dog]);
    assert HasPlayer(x.tokens.players, x.nameToId, k2, dog, x.dogNames[k2][dog]);
  }

  // ---------------------------------------------------------------------------------------------
  // Lookups

  const TOKEN_LENGTH := 32

  datatype LookupError = InvalidToken | UnknownToken | InvalidPlayerId | OutOfRange

  function ByToken(t: Tokens, token: Token): Result<Player, LookupError> {
    if |token| != TOKEN_LENGTH then Err(InvalidToken)
    else if token !in t.toId then Err(UnknownToken)
    else if t.toId[token] !in t.players then Err(OutOfRange)
    else Ok(t.players[t.toId[token]])
  }

  /** A player is looked up by id by way of its token. */
  function ById(t: Tokens, id: nat): Result<Player, LookupError> {
    if id !in t.ofId then Err(InvalidPlayerId) else ByToken(t, t.ofId[id])
  }

  ghost predicate TokensLong(t: Tokens) { forall token :: token in t.toId ==> |token| == TOKEN_LENGTH }

  /** The way over the token finds exactly the players there are, and each token finds its owner and nobody else. */
  lemma LookupsFindPlayers(t: Tokens, id: nat, token: Token)
    requires TokensInv(t) && TokensLong(t)
    ensures ById(t, id) == if id in t.players then Ok(t.players[id]) else Err(InvalidPlayerId)
    ensures ByToken(t, token).Ok? <==> exists j :: j in t.players && t.ofId[j] == token
    ensures id in t.players && t.ofId[id] == token ==> ByToken(t, token) == Ok(t.players[id])
    ensures ByToken(t, token) == Err(InvalidToken) <==> |token| != 32
    ensures ByToken(t, token) == Err(UnknownToken) <==> |token| == 32 && token !in t.toId
  {
  }

  /** Who joins with a fresh token is found by token and id; what anybody else finds does not change. */
  lemma JoinerIsFound(t: Tokens, p: Player, token: Token, other: Token, id: nat)
    requires TokensInv(t) && TokensLong(t) && p.id !in t.players && token !in t.toId && |token| == TOKEN_LENGTH
    ensures var u := WithPlayer(t, p, token);
            && ByToken(u, token) == Ok(p) && ById(u, p.id) == Ok(p) && TokensLong(u)
            && (other != token ==> ByToken(u, other) == ByToken(t, other))
            && (id != p.id ==> ById(u, id) == ById(t, id))
  {
  }

  /** Who retires is found no longer; what anybody else finds does not change. */
  lemma LeaverIsNotFound(t: Tokens, leaver: nat, other: Token, id: nat)
    requires TokensInv(t) && TokensLong(t) && leaver in t.players
    ensures leaver in t.ofId
    ensures var u := WithoutPlayer(t, leaver);
            && ByToken(u, t.ofId[leaver]) == Err(UnknownToken) && ById(u, leaver) == Err(InvalidPlayerId)
            && TokensLong(u)
            && (other != t.ofId[leaver] ==> ByToken(u, other) == ByToken(t, other))
            && (id != leaver ==> ById(u, id) == ById(t, id))
  {
  }
}
