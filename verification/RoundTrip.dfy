/**
  A saved game comes back: restoring what was saved into a new game over the same maps succeeds, gives back every
  player, token, dog and lost object, and may be saved in exactly the same ways.
 */
module RoundTrip {
  import opened Wrappers
  import opened RoadMap
  import opened Dogs
  import opened SessionModel
  import opened Registry
  import opened GameModel
  import opened GameRuns
  import opened Serialization

  // ---------------------------------------------------------------------------------------------
  // Lost objects

  /** Nothing has been exchanged, and nobody has left. */
  ghost predicate NothingGone(s: Session) { s.history.cashed == [] && s.history.retired == map[] }

  /** Adding known objects to a session. */
  lemma {:induction false} AddLootsAdds(s: Session, ls: seq<Loot>, lost: map<nat, Loot>)
    requires s.lost == map[] && forall i :: 0 <= i < |ls| ==> ls[i].id in lost && lost[ls[i].id] == ls[i]
    ensures var t := AfterAddLoots(s, ls);
            && t.dogs == s.dogs && t.history.retired == s.history.retired && t.history.cashed == s.history.cashed
            && (forall id :: id in t.lost <==> exists i :: 0 <= i < |ls| && ls[i].id == id)
            && (forall id :: id in t.lost ==> id in lost && t.lost[id] == lost[id])
  {
    if ls != [] {
      var front := ls[..|ls| - 1];
      AddLootsAdds(s, front, lost);
      assert forall i :: 0 <= i < |front| ==> front[i] == ls[i];
      var t, u := AfterAddLoots(s, front), AfterAddLoots(s, ls);
      forall id ensures id in u.lost <==> exists i :: 0 <= i < |ls| && ls[i].id == id {
        assert id in u.lost <==> id in t.lost || id == ls[|ls| - 1].id;
      }
    }
  }

  /** The restored objects of a saved session are its lost objects. */
  lemma RestoredLootsAreLost(rs: seq<LootRepr>, lost: map<nat, Loot>)
    requires LostList(rs, lost) && forall id :: id in lost ==> lost[id].id == id
    ensures var t := AfterAddLoots(EMPTY_SESSION, RestoredLoots(rs));
            t.dogs == map[] && t.lost == lost && NothingGone(t)
  {
    var ls := RestoredLoots(rs);
    var ids := seq(|rs|, i requires 0 <= i < |rs| => rs[i].id);
    AddLootsAdds(EMPTY_SESSION, ls, lost);
    var t := AfterAddLoots(EMPTY_SESSION, ls);
    forall id ensures id in t.lost <==> id in lost {
      if id in lost {
        assert id in ids;
        var i: nat :| i < |ids| && ids[i] == id;
        assert ls[i].id == id;
      }
    }
  }

  lemma {:induction false} BumpAllPasses(next: nat, rs: seq<LootRepr>)
    ensures BumpAll(next, rs) >= next
    ensures forall i :: 0 <= i < |rs| ==> rs[i].id < BumpAll(next, rs)
  {
    if rs != [] {
      BumpAllPasses(next, rs[..|rs| - 1]);
      assert forall i :: 0 <= i < |rs| - 1 ==> rs[..|rs| - 1][i] == rs[i];
    }
  }

  lemma LostListBound(rs: seq<LootRepr>, lost: map<nat, Loot>, next: nat)
    requires LostList(rs, lost)
    ensures forall id :: id in lost ==> id < BumpAll(next, rs)
  {
    BumpAllPasses(next, rs);
    var ids := seq(|rs|, i requires 0 <= i < |rs| => rs[i].id);
    forall id | id in lost ensures id < BumpAll(next, rs) {
      assert id in ids;
      var i: nat :| i < |ids| && ids[i] == id;
      assert rs[i].id == id;
    }
  }

  /** A session with the lost objects of another, and no dogs. */
  ghost predicate BareCopy(s: Session, t: Session, nextLoot: nat) {
    && s.dogs == map[] && NothingGone(s) && s.lost == t.lost
    && forall id :: id in s.lost ==> id < nextLoot
  }

  /** The sessions of the first n entries are back, without dogs. */
  ghost predicate SessionsBack(h: Game, g: Game, rs: seq<SessionRepr>) {
    && h == NewGame(g.maps).(sessions := h.sessions, nextLoot := h.nextLoot)
    && h.sessions.Keys == MapIds(rs)
    && (forall k :: k in h.sessions ==> k in g.sessions && BareCopy(h.sessions[k], g.sessions[k], h.nextLoot))
  }

  lemma BareBack(g: Game, r: SessionRepr, next: nat)
    requires GameInv(g) && r.mapId in g.sessions && LostList(r.lost, g.sessions[r.mapId].lost)
    ensures BareCopy(AfterAddLoots(EMPTY_SESSION, RestoredLoots(r.lost)), g.sessions[r.mapId], BumpAll(next, r.lost))
  {
    assert SessionInv(g.maps[r.mapId], g.sessions[r.mapId]);
    RestoredLootsAreLost(r.lost, g.sessions[r.mapId].lost);
    LostListBound(r.lost, g.sessions[r.mapId].lost, next);
  }

  lemma OneMoreMapId(rs: seq<SessionRepr>, r: SessionRepr)
    ensures MapIds(rs + [r]) == MapIds(rs) + {r.mapId}
  {
    var more := rs + [r];
    assert more[|rs|] == r && forall i :: 0 <= i < |rs| ==> more[i] == rs[i];
  }

  lemma PutBack(h: Game, g: Game, rs: seq<SessionRepr>, r: SessionRepr, t: Session, next: nat)
    requires SessionsBack(h, g, rs) && r.mapId in g.sessions && h.nextLoot <= next
    requires BareCopy(t, g.sessions[r.mapId], next)
    ensures SessionsBack(PutSession(h, r.mapId, t).(nextLoot := next), g, rs + [r])
  {
    hide MapIds;
    OneMoreMapId(rs, r);
  }

  lemma SessionBack(h: Game, g: Game, rs: seq<SessionRepr>, r: SessionRepr)
    requires GameInv(g) && SessionsBack(h, g, rs) && r.mapId in g.sessions && LostList(r.lost, g.sessions[r.mapId].lost)
    requires r.mapId !in MapIds(rs)
    ensures RestoreSession(h, r).Ok? && SessionsBack(RestoreSession(h, r).value, g, rs + [r])
  {
    assert r.mapId in h.maps && SessionOf(h, r.mapId) == EMPTY_SESSION;
    hide GameInv, LostList, AfterAddLoots, BumpAll, MapIds, SessionsBack, BareCopy, SessionOf;
    BareBack(g, r, h.nextLoot);
    BumpAllPasses(h.nextLoot, r.lost);
    PutBack(h, g, rs, r, AfterAddLoots(EMPTY_SESSION, RestoredLoots(r.lost)), BumpAll(h.nextLoot, r.lost));
  }

  lemma {:induction false} SessionsComeBack(g: Game, rs: seq<SessionRepr>, n: nat)
    requires GameInv(g) && SessionList(rs, g.sessions) && n <= |rs|
    ensures RestoreSessions(NewGame(g.maps), rs[..n]).Ok?
    ensures SessionsBack(RestoreSessions(NewGame(g.maps), rs[..n]).value, g, rs[..n])
  {
    hide GameInv, LostList, SessionsBack, RestoreSession;
    if n > 0 {
      SessionsComeBack(g, rs, n - 1);
      assert rs[..n][..n - 1] == rs[..n - 1] && rs[..n] == rs[..n - 1] + [rs[n - 1]];
      assert rs[n - 1].mapId !in MapIds(rs[..n - 1]);
      SessionBack(RestoreSessions(NewGame(g.maps), rs[..n - 1]).value, g, rs[..n - 1], rs[n - 1]);
    } else {
      NothingBack(g);
    }
  }

  lemma NothingBack(g: Game)
    ensures SessionsBack(NewGame(g.maps), g, [])
  {
  }

  // ---------------------------------------------------------------------------------------------
  // Players

  /** The part of the tokens that belongs to some players. */
  function TokensOf(t: Tokens, done: set<nat>): Tokens {
    Tokens(map k | k in t.toId && t.toId[k] in done :: t.toId[k],
           map id | id in t.players && id in done :: t.players[id],
           map id | id in t.ofId && id in done :: t.ofId[id])
  }

  function NamesOf(nameToId: map<string, nat>, done: set<nat>): map<string, nat> {
    map n | n in nameToId && nameToId[n] in done :: nameToId[n]
  }

  /** The ids on the maps are those of some players. */
  ghost predicate OnMapOf(onMap: map<MapId, set<nat>>, players: map<nat, Player>, done: set<nat>) {
    forall k, id :: id in Get(onMap, k) <==> id in done && id in players && players[id].mapId == k
  }

  predicate Owned(g: Game, name: string, done: set<nat>) { name in g.nameToId && g.nameToId[name] in done }

  /** The dogs of some players, rested. */
  function DogsOwned(g: Game, s: Session, done: set<nat>): map<nat, DogState> {
    map dog | dog in s.dogs && Owned(g, s.dogs[dog].name, done) :: Rested(s.dogs[dog])
  }

  /** A session is back with the dogs of some players; no later object gets the id of one that is back. */
  ghost predicate CopyOf(g: Game, t: Session, s: Session, done: set<nat>, nextLoot: nat) {
    && s.dogs == DogsOwned(g, t, done) && NothingGone(s) && s.lost == t.lost
    && (forall id :: id in s.lost ==> id < nextLoot)
    && (forall dog :: dog in s.dogs ==> BagBelow(s.dogs[dog].bag, nextLoot))
  }

  ghost predicate SessionsOf(g: Game, sessions: map<MapId, Session>, done: set<nat>, nextLoot: nat) {
    sessions.Keys == g.sessions.Keys && forall k :: k in sessions ==>
        CopyOf(g, g.sessions[k], sessions[k], done, nextLoot)
  }

  ghost predicate IndexBack(h: Game, g: Game, done: set<nat>) {
    && h.tokens == TokensOf(g.tokens, done)
    && h.nameToId == NamesOf(g.nameToId, done)
    && OnMapOf(h.onMap, g.tokens.players, done)
  }

  /** Some players are back, with their dogs, names and tokens, and their ids are used up. */
  ghost predicate PlayersBack(h: Game, g: Game, done: set<nat>) {
    && h.maps == g.maps && done <= g.tokens.players.Keys
    && IndexBack(h, g, done)
    && SessionsOf(g, h.sessions, done, h.nextLoot)
    && (forall id :: id in done ==> id < h.nextPlayer && g.tokens.players[id].dogId < h.nextDog)
  }

  lemma TokensOneMore(t: Tokens, done: set<nat>, id: nat)
    requires TokensInv(t) && id in t.players && id !in done
    ensures WithPlayer(TokensOf(t, done), t.players[id], t.ofId[id]) == TokensOf(t, done + {id})
  {
  }

  lemma NamesOneMore(g: Game, done: set<nat>, id: nat)
    requires NamesInv(g.tokens.players, g.nameToId) && id in g.tokens.players
    ensures NamesOf(g.nameToId, done)[g.tokens.players[id].name := id] == NamesOf(g.nameToId, done + {id})
  {
  }

  /** The dogs' names lead to the players who own them. */
  lemma OwnsOne(g: Game, id: nat, k: MapId, dog: nat)
    requires GameInv(g) && id in g.tokens.players && k in g.sessions && dog in g.sessions[k].dogs
    ensures Owned(g, g.sessions[k].dogs[dog].name, {id}) <==>
        k == g.tokens.players[id].mapId && dog == g.tokens.players[id].dogId
  {
    hide GameInv;
    DogsHavePlayers(g, k, dog);
    PlayersHaveDogs(g, id);
    NameLeadsBack(g, id);
  }

  lemma NameLeadsBack(g: Game, id: nat)
    requires GameInv(g) && id in g.tokens.players
    ensures g.tokens.players[id].name in g.nameToId && g.nameToId[g.tokens.players[id].name] == id
  {
    assert NamesInv(IndexOf(g).tokens.players, IndexOf(g).nameToId);
  }

  lemma NoDogMore(g: Game, done: set<nat>, id: nat, k: MapId)
    requires GameInv(g) && id in g.tokens.players && k in g.sessions && k != g.tokens.players[id].mapId
    ensures DogsOwned(g, g.sessions[k], done + {id}) == DogsOwned(g, g.sessions[k], done)
  {
    hide GameInv;
    forall dog | dog in g.sessions[k].dogs ensures !Owned(g, g.sessions[k].dogs[dog].name, {id}) {
      OwnsOne(g, id, k, dog);
    }
  }

  lemma OneDogMore(g: Game, done: set<nat>, id: nat)
    requires GameInv(g) && id in g.tokens.players
    ensures HasPlace(g, id)
    ensures var p, s := g.tokens.players[id], g.sessions[g.tokens.players[id].mapId];
            DogsOwned(g, s, done + {id}) == DogsOwned(g, s, done)[p.dogId := Rested(s.dogs[p.dogId])]
  {
    hide GameInv;
    PlayersHaveDogs(g, id);
    var k := g.tokens.players[id].mapId;
    forall dog | dog in g.sessions[k].dogs
      ensures Owned(g, g.sessions[k].dogs[dog].name, {id}) <==> dog == g.tokens.players[id].dogId
    {
      OwnsOne(g, id, k, dog);
    }
  }

  /** One session gets its dog, the others none. */
  lemma SessionsOneMore(h: Game, g: Game, done: set<nat>, id: nat, d: DogState, next: nat)
    requires GameInv(g) && id in g.tokens.players && HasPlace(g, id) && d == Rested(DogOf(g, id))
    requires SessionsOf(g, h.sessions, done, h.nextLoot)
    requires h.nextLoot <= next && BagBelow(d.bag, next)
    ensures var k := g.tokens.players[id].mapId;
            SessionsOf(g, PutSession(h, k, AfterAddDog(SessionOf(h, k), d)).sessions, done + {id}, next)
  {
    hide GameInv, DogsOwned;
    var k := g.tokens.players[id].mapId;
    OneDogMore(g, done, id);
    DogHasItsId(g, id);
    forall j | j in g.sessions && j != k
      ensures DogsOwned(g, g.sessions[j], done + {id}) == DogsOwned(g, g.sessions[j], done)
    {
      NoDogMore(g, done, id, j);
    }
  }

  lemma DogHasItsId(g: Game, id: nat)
    requires GameInv(g) && HasPlace(g, id)
    ensures DogOf(g, id).id == g.tokens.players[id].dogId && |DogOf(g, id).bag| <= DogOf(g, id).bagCapacity
    ensures ValidDirection(DogOf(g, id).direction)
  {
    var p := g.tokens.players[id];
    assert SessionInv(g.maps[p.mapId], g.sessions[p.mapId]);
    assert DogInv(g.maps[p.mapId], DogOf(g, id));
  }

  lemma OnMapOneMore(onMap: map<MapId, set<nat>>, players: map<nat, Player>, done: set<nat>, id: nat)
    requires OnMapOf(onMap, players, done) && id in players
    ensures OnMapOf(onMap[players[id].mapId := Get(onMap, players[id].mapId) + {id}], players, done + {id})
  {
    var k := players[id].mapId;
    var more := onMap[k := Get(onMap, k) + {id}];
    forall j, i ensures i in Get(more, j) <==> i in done + {id} && i in players && players[i].mapId == j {
      assert Get(more, j) == if j == k then Get(onMap, k) + {id} else Get(onMap, j);
      assert i in Get(onMap, j) <==> i in done && i in players && players[i].mapId == j;
    }
  }

  /** The dog of a saved player comes back rested, and the counter passes its objects. */
  lemma DogBack(g: Game, r: GameRepr, id: nat, next: nat)
    requires GameInv(g) && IsSaveOf(r, g) && id in g.tokens.players
    ensures HasPlace(g, id) && RestoreDog(r.tokens.players[id].dog) == Ok(Rested(DogOf(g, id)))
    ensures next <= BumpAll(next, r.tokens.players[id].dog.bag)
    ensures BagBelow(DogOf(g, id).bag, BumpAll(next, r.tokens.players[id].dog.bag))
  {
    hide GameInv, SessionList;
    var d := DogOf(g, id);
    DogHasItsId(g, id);
    assert IsPlayerSave(r.tokens.players[id], g.tokens.players[id], d);
    DogRoundTripIff(d);
    BumpAllPasses(next, SaveBag(d.bag));
    forall i | 0 <= i < |d.bag| && d.bag[i].Some? ensures d.bag[i].value.id < BumpAll(next, SaveBag(d.bag)) {
      assert SaveBag(d.bag)[i].id == d.bag[i].value.id;
    }
  }

  lemma PlayerIndexed(h: Game, g: Game, done: set<nat>, id: nat)
    requires GameInv(g) && IndexBack(h, g, done) && id in g.tokens.players && id !in done && id in g.tokens.ofId
    ensures IndexBack(Filed(h, g.tokens.players[id], g.tokens.ofId[id]), g, done + {id})
  {
    assert IndexInv(IndexOf(g));
    hide GameInv, SessionsOf, OnMapOf, TokensOf, NamesOf, WithPlayer;
    TokensOneMore(g.tokens, done, id);
    NamesOneMore(g, done, id);
    OnMapOneMore(h.onMap, g.tokens.players, done, id);
  }

  /** One more player is back. */
  lemma PlayerBack(h: Game, g: Game, done: set<nat>, id: nat, r: PlayerRepr)
    requires GameInv(g) && PlayersBack(h, g, done) && id in g.tokens.players && id !in done && HasDogState(g, id)
    requires IsPlayerSave(r, g.tokens.players[id], DogOf(g, id))
    requires h.nextLoot <= BumpAll(h.nextLoot, r.dog.bag) && BagBelow(DogOf(g, id).bag, BumpAll(h.nextLoot, r.dog.bag))
    ensures PlayersBack(Readmitted(h, r, g.tokens.ofId[id], Rested(DogOf(g, id))), g, done + {id})
  {
    hide GameInv, SessionsOf, IndexBack, BumpAll, BagBelow, SaveDog, WithPlayer;
    var d := Rested(DogOf(g, id));
    DogHasItsId(g, id);
    PlayersHaveDogs(g, id);
    assert Player(r.id, r.name, r.mapId, d.id) == g.tokens.players[id];
    PlayerIndexed(h, g, done, id);
    SessionsOneMore(h, g, done, id, d, BumpAll(h.nextLoot, r.dog.bag));
    SameIndexBack(Filed(h, g.tokens.players[id], g.tokens.ofId[id]), Readmitted(h, r, g.tokens.ofId[id], d), g,
        done + {id});
  }

  lemma SameIndexBack(h: Game, j: Game, g: Game, done: set<nat>)
    requires IndexBack(h, g, done) && j.tokens == h.tokens && j.nameToId == h.nameToId && j.onMap == h.onMap
    ensures IndexBack(j, g, done)
  {
  }

  function SetOf(ids: seq<nat>): set<nat> { set id | id in ids }

  lemma RestoreOneMore(h: Game, ids: seq<nat>, rs: TokensRepr, n: nat)
    requires n < |ids| && (forall id :: id in ids ==> id in rs.players) && RestorePlayers(h, ids[..n], rs).Ok?
    ensures RestorePlayers(h, ids[..n + 1], rs) == RestorePlayer(RestorePlayers(h, ids[..n], rs).value, ids[n], rs)
  {
    assert ids[..n + 1][..n] == ids[..n];
  }

  lemma OneMoreId(ids: seq<nat>, n: nat)
    requires n < |ids| && forall i, j :: 0 <= i < j < |ids| ==> ids[i] != ids[j]
    ensures SetOf(ids[..n + 1]) == SetOf(ids[..n]) + {ids[n]} && ids[n] !in SetOf(ids[..n])
  {
  }

  lemma {:induction false} PlayersComeBack(h: Game, g: Game, r: GameRepr, ids: seq<nat>, n: nat)
    requires GameInv(g) && IsSaveOf(r, g) && PlayersBack(h, g, {}) && Enumerates(ids, r.tokens.players) && n <= |ids|
    ensures RestorePlayers(h, ids[..n], r.tokens).Ok?
    ensures PlayersBack(RestorePlayers(h, ids[..n], r.tokens).value, g, SetOf(ids[..n]))
  {
    hide GameInv, PlayersBack, IsSaveOf, RestorePlayer;
    if n == 0 {
      assert SetOf(ids[..0]) == {};
    } else {
      PlayersComeBack(h, g, r, ids, n - 1);
      RestoreOneMore(h, ids, r.tokens, n - 1);
      OneMoreId(ids, n - 1);
      assert ids[n - 1] in ids;
      NextPlayerBack(RestorePlayers(h, ids[..n - 1], r.tokens).value, g, r, SetOf(ids[..n - 1]), ids[n - 1]);
    }
  }

  lemma NextPlayerBack(h: Game, g: Game, r: GameRepr, done: set<nat>, id: nat)
    requires GameInv(g) && IsSaveOf(r, g) && PlayersBack(h, g, done) && id in r.tokens.players && id !in done
    ensures RestorePlayer(h, id, r.tokens).Ok? && PlayersBack(RestorePlayer(h, id, r.tokens).value, g, done + {id})
  {
    assert h.maps == g.maps;
    hide GameInv, PlayersBack, SessionList, Readmitted;
    DogBack(g, r, id, h.nextLoot);
    InvHasTokens(g, id);
    PlayerBack(h, g, done, id, r.tokens.players[id]);
  }

  // ---------------------------------------------------------------------------------------------
  // The whole game

  /** A session's dogs after a night in the file. */
  function RestedDogs(s: Session): map<nat, DogState> { map dog | dog in s.dogs :: Rested(s.dogs[dog]) }

  /** Everything that is saved is the same; only clocks and gatherers start anew. */
  ghost predicate Regained(h: Game, g: Game) {
    && h.maps == g.maps && h.tokens == g.tokens && h.nameToId == g.nameToId
    && (forall k :: Get(h.onMap, k) == Get(g.onMap, k))
    && h.sessions.Keys == g.sessions.Keys
    && (forall k :: k in h.sessions ==>
          && h.sessions[k].lost == g.sessions[k].lost && h.sessions[k].dogs == RestedDogs(g.sessions[k])
          && NothingGone(h.sessions[k]))
  }

  lemma AllDogsOwned(g: Game, k: MapId)
    requires GameInv(g) && k in g.sessions
    ensures DogsOwned(g, g.sessions[k], g.tokens.players.Keys) == RestedDogs(g.sessions[k])
  {
    hide GameInv;
    forall dog | dog in g.sessions[k].dogs ensures Owned(g, g.sessions[k].dogs[dog].name, g.tokens.players.Keys) {
      DogsHavePlayers(g, k, dog);
    }
  }

  lemma TokensAllBack(t: Tokens)
    requires TokensInv(t)
    ensures TokensOf(t, t.players.Keys) == t
  {
  }

  lemma NamesAllBack(players: map<nat, Player>, nameToId: map<string, nat>)
    requires NamesInv(players, nameToId)
    ensures NamesOf(nameToId, players.Keys) == nameToId
  {
  }

  lemma MapsAllBack(players: map<nat, Player>, onMap: map<MapId, set<nat>>, back: map<MapId, set<nat>>)
    requires MapsInv(players, onMap) && OnMapOf(back, players, players.Keys)
    ensures forall k :: Get(back, k) == Get(onMap, k)
  {
    forall k ensures Get(back, k) == Get(onMap, k) {
      forall id: nat ensures id in Get(back, k) <==> id in Get(onMap, k) {
        assert id in Get(back, k) <==> id in players && players[id].mapId == k;
        assert id in Get(onMap, k) ==> k in onMap && id in onMap[k];
      }
      assert forall id: nat :: id in Get(back, k) <==> id in Get(onMap, k);
    }
  }

  lemma IndexAllBack(h: Game, g: Game)
    requires GameInv(g) && IndexBack(h, g, g.tokens.players.Keys)
    ensures h.tokens == g.tokens && h.nameToId == g.nameToId
    ensures forall k :: Get(h.onMap, k) == Get(g.onMap, k)
  {
    assert IndexInv(IndexOf(g));
    hide GameInv, TokensInv, NamesInv, MapsInv, OnMapOf, TokensOf, NamesOf;
    TokensAllBack(g.tokens);
    NamesAllBack(g.tokens.players, g.nameToId);
    MapsAllBack(g.tokens.players, g.onMap, h.onMap);
  }

  lemma AllBack(h: Game, g: Game)
    requires GameInv(g) && PlayersBack(h, g, g.tokens.players.Keys)
    ensures Regained(h, g)
  {
    hide GameInv, IndexBack, DogsOwned;
    IndexAllBack(h, g);
    forall k | k in h.sessions ensures h.sessions[k].dogs == RestedDogs(g.sessions[k]) && NothingGone(h.sessions[k]) {
      AllDogsOwned(g, k);
      assert CopyOf(g, g.sessions[k], h.sessions[k], g.tokens.players.Keys, h.nextLoot);
    }
  }

  /** The sessions without dogs are the start of the players' part. */
  lemma SessionsFirst(h: Game, g: Game, rs: seq<SessionRepr>)
    requires GameInv(g) && SessionsBack(h, g, rs) && SessionList(rs, g.sessions)
    ensures PlayersBack(h, g, {})
  {
    hide GameInv, LostList;
    forall k | k in h.sessions ensures CopyOf(g, g.sessions[k], h.sessions[k], {}, h.nextLoot) {
      assert BareCopy(h.sessions[k], g.sessions[k], h.nextLoot);
      assert DogsOwned(g, g.sessions[k], {}) == map[];
    }
  }

  lemma RestoreReaches(g: Game, r: GameRepr, ids: seq<nat>)
    requires GameInv(g) && IsSaveOf(r, g) && Enumerates(ids, r.tokens.players)
    ensures RestoreGame(NewGame(g.maps), r, ids).Ok?
    ensures PlayersBack(RestoreGame(NewGame(g.maps), r, ids).value, g, g.tokens.players.Keys)
  {
    hide GameInv, PlayersBack, SessionsBack, IsPlayerSave, LostList;
    SessionsComeBack(g, r.sessions, |r.sessions|);
    assert r.sessions[..|r.sessions|] == r.sessions && ids[..|ids|] == ids;
    var h := RestoreSessions(NewGame(g.maps), r.sessions).value;
    SessionsFirst(h, g, r.sessions);
    PlayersComeBack(h, g, r, ids, |ids|);
    assert SetOf(ids) == g.tokens.players.Keys;
  }

  // ---------------------------------------------------------------------------------------------
  // The restored game is as good as the saved one

  lemma RestedKeepsInv(m: GameMap, s: Session, t: Session)
    requires SessionInv(m, s) && t.lost == s.lost && t.dogs == RestedDogs(s) && NothingGone(t)
    ensures SessionInv(m, t) && Names(t) == Names(s)
  {
  }

  lemma RegainedIndex(h: Game, g: Game)
    requires GameInv(g) && Regained(h, g) && DogNames(h.sessions) == DogNames(g.sessions)
    ensures IndexInv(IndexOf(h))
  {
    var x, y := IndexOf(g), IndexOf(h);
    assert IndexInv(x) && y == x.(onMap := h.onMap);
    assert forall k :: Get(h.onMap, k) == Get(g.onMap, k);
    hide GameInv, Regained, TokensInv, NamesInv;
    RegainedMaps(x.tokens.players, x.onMap, y.onMap);
    SameDogsInv(x, y);
  }

  lemma RegainedMaps(players: map<nat, Player>, onMap: map<MapId, set<nat>>, back: map<MapId, set<nat>>)
    requires MapsInv(players, onMap) && forall k :: Get(back, k) == Get(onMap, k)
    ensures MapsInv(players, back)
  {
    forall id | id in players ensures players[id].mapId in back && id in back[players[id].mapId] {
      assert id in Get(back, players[id].mapId);
    }
    forall k, id | k in back && id in back[k] ensures id in players && players[id].mapId == k {
      assert id in Get(onMap, k);
    }
  }

  lemma SameDogsInv(x: Index, y: Index)
    requires DogsInv(x) && y == x.(onMap := y.onMap)
    ensures DogsInv(y)
  {
  }

  /** Every id is below the counters. */
  lemma RegainedCounters(h: Game, g: Game)
    requires GameInv(g) && PlayersBack(h, g, g.tokens.players.Keys)
    ensures CountersInv(h)
  {
    hide GameInv, IndexBack, Rested, CopyOf, IdsBelow;
    AllBack(h, g);
    forall k | k in h.sessions ensures IdsBelow(h.sessions[k], h.nextDog, h.nextLoot) {
      IdsRegained(h, g, k);
    }
  }

  lemma IdsRegained(h: Game, g: Game, k: MapId)
    requires GameInv(g) && PlayersBack(h, g, g.tokens.players.Keys) && k in h.sessions
    requires h.sessions[k].dogs == RestedDogs(g.sessions[k])
    ensures IdsBelow(h.sessions[k], h.nextDog, h.nextLoot)
  {
    hide GameInv, BagBelow, Rested, DogsOwned;
    assert CopyOf(g, g.sessions[k], h.sessions[k], g.tokens.players.Keys, h.nextLoot);
    hide IndexBack;
    forall dog | dog in h.sessions[k].dogs ensures dog < h.nextDog {
      DogsHavePlayers(g, k, dog);
    }
  }

  lemma RegainedSession(h: Game, g: Game, k: MapId)
    requires GameInv(g) && PlayersBack(h, g, g.tokens.players.Keys) && Regained(h, g) && k in h.sessions
    ensures SessionInv(h.maps[k], h.sessions[k]) && Names(h.sessions[k]) == Names(g.sessions[k])
  {
    assert SessionInv(g.maps[k], g.sessions[k]);
    assert CopyOf(g, g.sessions[k], h.sessions[k], g.tokens.players.Keys, h.nextLoot);
    hide GameInv, SessionInv, IndexBack, DogsOwned, BagBelow;
    RestedKeepsInv(g.maps[k], g.sessions[k], h.sessions[k]);
  }

  lemma SameNames(s: map<MapId, Session>, t: map<MapId, Session>)
    requires s.Keys == t.Keys && forall k :: k in s ==> Names(s[k]) == Names(t[k])
    ensures DogNames(s) == DogNames(t)
  {
  }

  lemma SessionsAndMaps(h: Game, g: Game)
    requires GameInv(g) && Regained(h, g)
    ensures SessionsInv(g) && h.maps == g.maps && h.sessions.Keys == g.sessions.Keys
  {
    hide SessionsInv, CountersInv, IndexInv;
  }

  lemma RegainedSessions(h: Game, g: Game)
    requires GameInv(g) && PlayersBack(h, g, g.tokens.players.Keys) && Regained(h, g)
    ensures SessionsInv(h) && DogNames(h.sessions) == DogNames(g.sessions)
  {
    hide GameInv, SessionInv, PlayersBack, Names, Regained, DogNames, GameMap.Valid;
    SessionsAndMaps(h, g);
    forall k | k in h.sessions
      ensures SessionInv(h.maps[k], h.sessions[k]) && Names(h.sessions[k]) == Names(g.sessions[k])
    {
      RegainedSession(h, g, k);
    }
    SameNames(h.sessions, g.sessions);
  }

  lemma RegainedInv(h: Game, g: Game)
    requires GameInv(g) && PlayersBack(h, g, g.tokens.players.Keys)
    ensures GameInv(h)
  {
    AllBack(h, g);
    RegainedCounters(h, g);
    RegainedSessions(h, g);
    hide SessionsInv, CountersInv, IndexInv, PlayersBack, Regained, DogNames;
    RegainedIndex(h, g);
  }

  lemma RestedPlayersSaveAlike(h: Game, g: Game, id: nat)
    requires Regained(h, g) && id in g.tokens.players
    ensures HasPlace(h, id) <==> HasPlace(g, id)
    ensures HasPlace(h, id) ==> SaveDog(DogOf(h, id)) == SaveDog(DogOf(g, id))
  {
  }

  /** Resting changes nothing that is written. */
  lemma RestedSavesAlike(h: Game, g: Game, r: GameRepr)
    requires Regained(h, g)
    ensures IsSaveOf(r, h) <==> IsSaveOf(r, g)
  {
    SameLostSameList(h, g, r.sessions);
    hide HasPlace, SaveDog, SessionList;
    forall id | id in g.tokens.players
      ensures HasPlace(h, id) <==> HasPlace(g, id)
      ensures HasPlace(h, id) ==> SaveDog(DogOf(h, id)) == SaveDog(DogOf(g, id))
    {
      RestedPlayersSaveAlike(h, g, id);
    }
  }

  lemma SameLostSameList(h: Game, g: Game, rs: seq<SessionRepr>)
    requires Regained(h, g)
    ensures SessionList(rs, h.sessions) <==> SessionList(rs, g.sessions)
  {
  }

  /** A game that was saved comes back from the file whole: every player with its token, every dog with its bag
      in order, every lost object.  The game that is back keeps the invariant and may be saved in exactly the
      ways the first one might. */
  lemma DogComesBack(h: Game, g: Game, k: MapId, dog: nat)
    requires Regained(h, g) && k in g.sessions
    ensures k in h.sessions && (dog in h.sessions[k].dogs <==> dog in g.sessions[k].dogs)
    ensures dog in g.sessions[k].dogs ==>
              var d, e := g.sessions[k].dogs[dog], h.sessions[k].dogs[dog];
              && e.id == d.id && e.name == d.name && e.position == d.position && e.speed == d.speed
              && e.direction == d.direction && e.bag == d.bag && e.bagCapacity == d.bagCapacity && e.score == d.score
              && e.afkTime == 0 && e.liveTime == 0
              && e.gatherer == CollisionDetector.Gatherer(Geometry.Vec(0.0, 0.0), Geometry.Vec(0.0, 0.0), 0.3)
  {
  }

  lemma SaveThenRestore(g: Game, r: GameRepr, ids: seq<nat>)
    requires GameInv(g) && IsSaveOf(r, g) && Enumerates(ids, r.tokens.players)
    ensures RestoreGame(NewGame(g.maps), r, ids).Ok?
    ensures var h := RestoreGame(NewGame(g.maps), r, ids).value;
            && Regained(h, g) && GameInv(h)
            && forall again :: IsSaveOf(again, h) <==> IsSaveOf(again, g)
  {
    hide GameInv, IsSaveOf, RestoreGame, IndexBack, BagBelow;
    RestoreReaches(g, r, ids);
    var h := RestoreGame(NewGame(g.maps), r, ids).value;
    AllBack(h, g);
    RegainedInv(h, g);
    forall again ensures IsSaveOf(again, h) <==> IsSaveOf(again, g) {
      RestedSavesAlike(h, g, again);
    }
  }

  /** A game is only ever written when no dog carries an empty slot. */
  lemma SavedMeansClean(g: Game, r: GameRepr)
    requires GameInv(g) && IsSaveOf(r, g)
    ensures forall k :: k in g.sessions ==> NoPhantoms(g.sessions[k])
  {
    hide GameInv, LostList;
    forall k, dog | k in g.sessions && dog in g.sessions[k].dogs ensures NoPhantom(g.sessions[k].dogs[dog].bag) {
      DogsHavePlayers(g, k, dog);
      var id := g.nameToId[g.sessions[k].dogs[dog].name];
      assert IsPlayerSave(r.tokens.players[id], g.tokens.players[id], DogOf(g, id));
    }
  }
}
