/** The saved form of a whole game, built from its objects, and what comes of restoring it. */
module GameFiles {
  import opened Wrappers
  import opened Dogs
  import opened SessionModel
  import opened GameSessions
  import opened PlayerTokens
  import opened Registry
  import opened Serialization
  import opened RoundTrip
  import opened Games
  import DogFiles
  import M = GameModel
  import R = GameRuns
  import L = RunLedger

  /** A player with its dog; None is the access through an empty bag slot. */
  method SavePlayer(p: PlayerRef) returns (r: Option<PlayerRepr>)
    ensures r.Some? <==> NoPhantom(p.dog.bag)
    ensures r.Some? ==> IsPlayerSave(r.value, Plain(p), p.dog.State())
  {
    var dog := DogFiles.Save(p.dog);
    r := match dog case None => None case Some(d) => Some(PlayerRepr(p.id, p.name, p.session.m.id, d));
  }

  method SavePlayers(players: map<nat, PlayerRef>) returns (r: Option<map<nat, PlayerRepr>>)
    ensures r.Some? <==> forall id :: id in players ==> NoPhantom(players[id].dog.bag)
    ensures r.Some? ==> r.value.Keys == players.Keys
    ensures r.Some? ==> forall id :: id in players ==>
        IsPlayerSave(r.value[id], Plain(players[id]), players[id].dog.State())
  {
    hide IsPlayerSave, NoPhantom;
    var saved: map<nat, PlayerRepr> := map[];
    var todo := players.Keys;
    while todo != {}
      invariant todo <= players.Keys && saved.Keys == players.Keys - todo
      invariant forall id :: id in saved ==>
          NoPhantom(players[id].dog.bag) && IsPlayerSave(saved[id], Plain(players[id]), players[id].dog.State())
      decreases todo
    {
      var id :| id in todo;
      var p := SavePlayer(players[id]);
      if p.None? {
        return None;
      }
      saved := saved[id := p.value];
      todo := todo - {id};
    }
    r := Some(saved);
  }

  method SaveTokens(ofId: map<nat, Token>) returns (saved: map<nat, Token>)
    ensures saved == ofId
  {
    saved := map[];
    var todo := ofId.Keys;
    while todo != {}
      invariant todo <= ofId.Keys && saved == map id | id in ofId && id !in todo :: ofId[id]
      decreases todo
    {
      var id :| id in todo;
      saved := Emplace(saved, id, ofId[id]);
      todo := todo - {id};
    }
  }

  /** Lost objects are filed under their ids. */
  lemma LostAreFiled(game: Game)
    requires game.Valid() && M.GameInv(game.State())
    ensures forall k, id :: k in game.sessions && id in game.sessions[k].lost ==> game.sessions[k].lost[id].id == id
  {
  }

  /** Each of these sessions once, with its lost objects. */
  ghost predicate AreListed(rs: seq<SessionRepr>, sessions: map<MapId, GameSession>, done: set<MapId>)
    reads sessions.Values
  {
    && MapIds(rs) == done
    && (forall i, j :: 0 <= i < j < |rs| ==> rs[i].mapId != rs[j].mapId)
    && (forall i :: 0 <= i < |rs| ==> rs[i].mapId in sessions && LostList(rs[i].lost, sessions[rs[i].mapId].lost))
  }

  lemma OneMoreListed(rs: seq<SessionRepr>, sessions: map<MapId, GameSession>, done: set<MapId>, k: MapId,
      lost: seq<LootRepr>)
    requires AreListed(rs, sessions, done) && k in sessions && k !in done && LostList(lost, sessions[k].lost)
    ensures AreListed(rs + [SessionRepr(k, lost)], sessions, done + {k})
  {
    hide LostList;
    OneMoreMapId(rs, SessionRepr(k, lost));
    assert forall i :: 0 <= i < |rs| ==> rs[i].mapId in MapIds(rs);
  }

  /** Each session once, in the order of the map. */
  method SerializeSessions(sessions: map<MapId, GameSession>) returns (rs: seq<SessionRepr>)
    requires forall k, id :: k in sessions && id in sessions[k].lost ==> sessions[k].lost[id].id == id
    ensures AreListed(rs, sessions, sessions.Keys)
  {
    hide LostList, AreListed;
    rs := [];
    NothingListed(sessions);
    var todo := sessions.Keys;
    while todo != {}
      invariant todo <= sessions.Keys && AreListed(rs, sessions, sessions.Keys - todo)
      decreases todo
    {
      var k :| k in todo;
      var lost := DogFiles.SerializeLostObjects(sessions[k].lost);
      OneMoreListed(rs, sessions, sessions.Keys - todo, k, lost);
      assert sessions.Keys - (todo - {k}) == sessions.Keys - todo + {k};
      rs := rs + [SessionRepr(k, lost)];
      todo := todo - {k};
    }
    assert sessions.Keys - todo == sessions.Keys;
  }

  lemma NothingListed(sessions: map<MapId, GameSession>)
    ensures AreListed([], sessions, sessions.Keys - sessions.Keys)
  {
  }

  lemma ListedIsSaved(game: Game, rs: seq<SessionRepr>)
    requires AreListed(rs, game.sessions, game.sessions.Keys)
    ensures SessionList(rs, game.State().sessions)
  {
  }

  /** No player's dog carries an empty slot exactly when no session has one that does. */
  lemma CleanPlayers(game: Game)
    requires game.Valid() && M.GameInv(game.State())
    ensures L.AllClean(game.State()) <==> forall id :: id in game.tokens.players ==>
        NoPhantom(game.tokens.players[id].dog.bag)
  {
    var g := game.State();
    hide M.GameInv, NoPhantom, GameSession.State, Game.States, PlayerTokens.State;
    if L.AllClean(g) {
      forall id | id in game.tokens.players ensures NoPhantom(game.tokens.players[id].dog.bag) {
        game.DogIsPlain(id);
        assert R.DogOf(g, id).bag == game.tokens.players[id].dog.bag;
      }
    }
    if forall id :: id in game.tokens.players ==> NoPhantom(game.tokens.players[id].dog.bag) {
      forall k, dog | k in g.sessions && dog in g.sessions[k].dogs ensures NoPhantom(g.sessions[k].dogs[dog].bag) {
        R.DogsHavePlayers(g, k, dog);
        var id := g.nameToId[g.sessions[k].dogs[dog].name];
        game.PlayersArePlain(id);
        game.DogIsPlain(id);
      }
    }
  }

  /** Saving succeeds exactly when no dog carries an empty slot; then it writes the whole game. */
  method SaveGame(game: Game) returns (r: Option<GameRepr>)
    requires game.Valid() && M.GameInv(game.State())
    ensures r.Some? <==> L.AllClean(game.State())
    ensures r.Some? ==> IsSaveOf(r.value, game.State())
  {
    hide M.GameInv, NoPhantom, IsPlayerSave, SessionList, GameSession.State, Game.States, Game.SessionsValid,
      Game.PlayersValid;
    CleanPlayers(game);
    var players := SavePlayers(game.tokens.players);
    SameStill(game);
    var tokens := SaveTokens(game.tokens.ofId);
    SameStill(game);
    if players.None? {
      return None;
    }
    PlayersAreSaved(game, players.value);
    LostAreFiled(game);
    var sessions := SerializeSessions(game.sessions);
    SameStill(game);
    ListedIsSaved(game, sessions);
    r := Some(GameRepr(TokensRepr(players.value, tokens), sessions));
  }

  /** Building the saved form changes nothing in the game. */
  twostate lemma SameStill(game: Game)
    requires unchanged(game) && unchanged(game.tokens)
    requires forall k :: k in old(game.sessions) ==> unchanged(old(game.sessions)[k])
    requires forall k, id :: k in old(game.sessions) && id in old(game.sessions[k].dogs) ==>
        unchanged(old(game.sessions[k].dogs[id]))
    ensures game.State() == old(game.State())
  {
  }

  lemma PlayersAreSaved(game: Game, saved: map<nat, PlayerRepr>)
    requires game.Valid() && M.GameInv(game.State()) && saved.Keys == game.tokens.players.Keys
    requires forall id :: id in saved ==>
      IsPlayerSave(saved[id], Plain(game.tokens.players[id]), game.tokens.players[id].dog.State())
    ensures var g := game.State();
            && saved.Keys == g.tokens.players.Keys
            && forall id :: id in g.tokens.players ==>
              R.HasPlace(g, id) && IsPlayerSave(saved[id], g.tokens.players[id], R.DogOf(g, id))
  {
    hide M.GameInv, IsPlayerSave;
    forall id | id in game.tokens.players
      ensures id in game.State().tokens.players && R.HasPlace(game.State(), id)
      ensures IsPlayerSave(saved[id], game.State().tokens.players[id], R.DogOf(game.State(), id))
    {
      game.DogIsPlain(id);
      game.PlayerIsPlain(id);
    }
  }
}
