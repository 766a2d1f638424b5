/**
  Runs of the whole game: players join and give orders, loot appears, and the ticker moves the sessions and
  retires idle players.  What holds in every state of every run.
 */
module GameRuns {
  import opened Wrappers
  import opened Geometry
  import opened RoadMap
  import opened Dogs
  import opened SessionModel
  import opened SessionTick
  import opened SessionContest
  import opened Registry
  import opened GameModel

  datatype Step =
    | Join(name: string, mapId: MapId, spawn: Vec, token: Token, loots: seq<Loot>)
    | Order(player: nat, direction: string)
    | NewLoot(mapId: MapId, loots: seq<Loot>)
    | Ticker(deltaMs: nat, hits: map<MapId, seq<Hit>>, afk: seq<nat>)

  /** The state of a player's dog. */
  function DogOf(g: Game, id: nat): DogState
    requires id in g.tokens.players
    requires var p := g.tokens.players[id]; p.mapId in g.sessions && p.dogId in g.sessions[p.mapId].dogs
  {
    g.sessions[g.tokens.players[id].mapId].dogs[g.tokens.players[id].dogId]
  }

  /** The player's session and dog are where it says. */
  ghost predicate HasPlace(g: Game, id: nat) {
    && id in g.tokens.players
    && var p := g.tokens.players[id]; p.mapId in g.maps && p.mapId in g.sessions && p.dogId in g.sessions[p.mapId].dogs
  }

  ghost predicate HasDogState(g: Game, id: nat) { HasPlace(g, id) && id in g.tokens.ofId }

  /** The players to retire: those whose dog has been idle for the limit, each once. */
  ghost predicate IsAfkList(g: Game, limitMs: nat, ids: seq<nat>) {
    && (forall id :: id in ids <==> HasDogState(g, id) && IsAfk(DogOf(g, id), limitMs))
    && (forall i, j :: 0 <= i < j < |ids| ==> ids[i] != ids[j])
  }

  function AfterRetireAll(g: Game, ids: seq<nat>): Game {
    if ids == [] then g
    else
      var h := AfterRetireAll(g, ids[..|ids| - 1]);
      var id := ids[|ids| - 1];
      if id in h.tokens.players && id in h.tokens.ofId then AfterRetire(h, id) else h
  }

  ghost predicate Legal(g: Game, limitMs: nat, step: Step) {
    match step
    case Join(name, k, spawn, token, loots) =>
      k in g.maps && token !in g.tokens.toId && NewLoots(g.maps[k], loots, g.nextLoot)
    case Order(id, direction) => HasDogState(g, id)
    case NewLoot(k, loots) => k in g.sessions && k in g.maps && NewLoots(g.maps[k], loots, g.nextLoot)
    case Ticker(delta, hits, afk) => TicksAreFine(g, delta, hits) && IsAfkList(AfterTicks(g, delta, hits), limitMs, afk)
  }

  ghost function After(g: Game, limitMs: nat, step: Step): Game
    requires Legal(g, limitMs, step)
  {
    match step
    case Join(name, k, spawn, token, loots) =>
      if name in g.nameToId then g else AfterJoin(g, name, k, spawn, token, loots)
    case Order(id, direction) => AfterOrder(g, id, direction)
    case NewLoot(k, loots) => AfterNewLoot(g, k, loots)
    case Ticker(delta, hits, afk) => AfterRetireAll(AfterTicks(g, delta, hits), afk)
  }

  /** A run from a state of the invariant, such as a new or a restored game. */
  ghost predicate IsRun(run: seq<Game>, limitMs: nat, steps: seq<Step>) {
    && |run| == |steps| + 1 && GameInv(run[0])
    && forall i :: 0 <= i < |steps| ==>
      Legal(run[i], limitMs, steps[i]) && run[i + 1] == After(run[i], limitMs, steps[i])
  }

  lemma RunOneMore(run: seq<Game>, limitMs: nat, steps: seq<Step>, step: Step)
    requires IsRun(run, limitMs, steps) && Legal(run[|steps|], limitMs, step)
    ensures IsRun(run + [After(run[|steps|], limitMs, step)], limitMs, steps + [step])
  {
    hide Legal, After, GameInv;
  }

  // ---------------------------------------------------------------------------------------------
  // Retiring

  /** What retiring one player leaves of the others, and what it files about the dog. */
  lemma RetireEffect(g: Game, id: nat)
    requires GameInv(g) && id in g.tokens.players && id in g.tokens.ofId
    ensures var p, h := g.tokens.players[id], AfterRetire(g, id);
            && HasDogState(g, id)
            && h.tokens.players == g.tokens.players - {id}
            && h.maps == g.maps && h.sessions.Keys == g.sessions.Keys
            && (forall k :: k in g.sessions && k != p.mapId ==> h.sessions[k] == g.sessions[k])
            && h.sessions[p.mapId] == AfterRemoveDog(g.sessions[p.mapId], p.dogId)
  {
    hide GameInv, AfterRemoveDog;
    PlayersHaveDogs(g, id);
  }

  /** Dogs that are left are as they were, and the retired ones are filed as they were. */
  ghost predicate OnlyLeft(s: Session, t: Session) {
    && t.dogs.Keys <= s.dogs.Keys && t.lost == s.lost
    && (forall dog :: dog in t.dogs ==> t.dogs[dog] == s.dogs[dog])
    && (forall dog :: dog in s.dogs && dog !in t.dogs ==>
      dog in t.history.retired && t.history.retired[dog] == s.dogs[dog])
  }

  lemma OnlyLeftOneMore(s: Session, t: Session, dog: nat)
    requires OnlyLeft(s, t)
    ensures OnlyLeft(s, AfterRemoveDog(t, dog))
  {
  }

  lemma {:induction false} RetireAllEffect(g: Game, ids: seq<nat>)
    requires GameInv(g)
    requires forall i :: 0 <= i < |ids| ==> ids[i] in g.tokens.players
    requires forall i, j :: 0 <= i < j < |ids| ==> ids[i] != ids[j]
    ensures var h := AfterRetireAll(g, ids);
            && GameInv(h) && h.maps == g.maps && h.sessions.Keys == g.sessions.Keys
            && (forall id :: id in h.tokens.players <==> id in g.tokens.players && id !in ids)
            && (forall id :: id in h.tokens.players ==> h.tokens.players[id] == g.tokens.players[id])
            && (forall k :: k in g.sessions ==> OnlyLeft(g.sessions[k], h.sessions[k]))
  {
    hide GameInv, AfterRemoveDog;
    if ids != [] {
      var front, id := ids[..|ids| - 1], ids[|ids| - 1];
      RetireAllEffect(g, front);
      var h := AfterRetireAll(g, front);
      assert id in h.tokens.players;
      InvHasTokens(h, id);
      RetireKeepsInv(h, id);
      RetireEffect(h, id);
      forall k | k in g.sessions ensures OnlyLeft(g.sessions[k], AfterRetire(h, id).sessions[k]) {
        OnlyLeftOneMore(g.sessions[k], h.sessions[k], h.tokens.players[id].dogId);
      }
    }
  }

  lemma InvHasTokens(g: Game, id: nat)
    requires GameInv(g) && id in g.tokens.players
    ensures HasDogState(g, id)
  {
    PlayersHaveDogs(g, id);
  }

  /** Every dog has its player. */
  lemma DogsHavePlayers(g: Game, k: MapId, dog: nat)
    requires GameInv(g) && k in g.sessions && dog in g.sessions[k].dogs
    ensures var n := g.sessions[k].dogs[dog].name;
            n in g.nameToId && g.nameToId[n] in g.tokens.players
            && g.tokens.players[g.nameToId[n]].mapId == k && g.tokens.players[g.nameToId[n]].dogId == dog
  {
    assert IndexOf(g).dogNames[k][dog] == g.sessions[k].dogs[dog].name;
    assert HasPlayer(g.tokens.players, g.nameToId, k, dog, g.sessions[k].dogs[dog].name);
  }

  // ---------------------------------------------------------------------------------------------
  // The invariant over runs

  lemma AfkListMembers(g: Game, limitMs: nat, ids: seq<nat>)
    requires IsAfkList(g, limitMs, ids)
    ensures forall i :: 0 <= i < |ids| ==> ids[i] in g.tokens.players
  {
    forall i | 0 <= i < |ids| ensures ids[i] in g.tokens.players {
      assert ids[i] in ids;
    }
  }

  lemma StepKeepsInv(g: Game, limitMs: nat, step: Step)
    requires GameInv(g) && Legal(g, limitMs, step)
    ensures GameInv(After(g, limitMs, step)) && After(g, limitMs, step).maps == g.maps
  {
    hide GameInv, AfterTicks, AfterRetireAll, TicksAreFine;
    match step {
      case Join(name, k, spawn, token, loots) =>
        if name !in g.nameToId {
          JoinKeepsInv(g, name, k, spawn, token, loots);
        }
      case Order(id, direction) => OrderKeepsInv(g, id, direction);
      case NewLoot(k, loots) => NewLootKeepsInv(g, k, loots);
      case Ticker(delta, hits, afk) => TickerKeepsInv(g, limitMs, delta, hits, afk);
    }
  }

  lemma TickerKeepsInv(g: Game, limitMs: nat, delta: nat, hits: map<MapId, seq<Hit>>, afk: seq<nat>)
    requires GameInv(g) && Legal(g, limitMs, Ticker(delta, hits, afk))
    ensures GameInv(After(g, limitMs, Ticker(delta, hits, afk)))
    ensures After(g, limitMs, Ticker(delta, hits, afk)).maps == g.maps
  {
    hide GameInv, TicksAreFine;
    TicksKeepInv(g, delta, hits);
    var h := AfterTicks(g, delta, hits);
    AfkListMembers(h, limitMs, afk);
    RetireAllEffect(h, afk);
  }

  /** The indexes, counters and sessions of the game are consistent in every state of every run. */
  lemma {:induction false} RunsKeepInv(run: seq<Game>, limitMs: nat, steps: seq<Step>, i: nat)
    requires IsRun(run, limitMs, steps) && i < |run|
    ensures GameInv(run[i]) && run[i].maps == run[0].maps
  {
    hide GameInv, Legal, After;
    if i > 0 {
      RunsKeepInv(run, limitMs, steps, i - 1);
      StepKeepsInv(run[i - 1], limitMs, steps[i - 1]);
    }
  }

  /** Every token drawn for a player in these steps has the length of tokens. */
  ghost predicate DrawsTokens(steps: seq<Step>) {
    forall i :: 0 <= i < |steps| && steps[i].Join? ==> |steps[i].token| == TOKEN_LENGTH
  }

  lemma {:induction false} RetiringAddsNoToken(g: Game, ids: seq<nat>)
    ensures AfterRetireAll(g, ids).tokens.toId.Keys <= g.tokens.toId.Keys
  {
    if ids != [] {
      RetiringAddsNoToken(g, ids[..|ids| - 1]);
    }
  }

  lemma StepKeepsTokensLong(g: Game, limitMs: nat, step: Step)
    requires Legal(g, limitMs, step) && TokensLong(g.tokens) && (step.Join? ==> |step.token| == TOKEN_LENGTH)
    ensures TokensLong(After(g, limitMs, step).tokens)
  {
    hide TicksAreFine, IsAfkList, AfterRetireAll, NewLoots;
    if step.Ticker? {
      RetiringAddsNoToken(AfterTicks(g, step.deltaMs, step.hits), step.afk);
    }
  }

  lemma {:induction false} RunsKeepTokensLong(run: seq<Game>, limitMs: nat, steps: seq<Step>, i: nat)
    requires IsRun(run, limitMs, steps) && DrawsTokens(steps) && TokensLong(run[0].tokens) && i < |run|
    ensures TokensLong(run[i].tokens)
  {
    hide GameInv, Legal, After, TokensLong;
    if i > 0 {
      RunsKeepTokensLong(run, limitMs, steps, i - 1);
      StepKeepsTokensLong(run[i - 1], limitMs, steps[i - 1]);
    }
  }

  /** In every state of every run a player is found by its id and by its own token, and nobody by any other. */
  lemma PlayersAreFound(run: seq<Game>, limitMs: nat, steps: seq<Step>, i: nat, id: nat, token: Token)
    requires IsRun(run, limitMs, steps) && DrawsTokens(steps) && TokensLong(run[0].tokens) && i < |run|
    ensures var t := run[i].tokens;
            && ById(t, id) == (if id in t.players then Ok(t.players[id]) else Err(InvalidPlayerId))
            && (ByToken(t, token).Ok? <==> exists j :: j in t.players && j in t.ofId && t.ofId[j] == token)
            && (id in t.players && id in t.ofId && t.ofId[id] == token ==> ByToken(t, token) == Ok(t.players[id]))
  {
    RunsKeepTokensLong(run, limitMs, steps, i);
    RunsKeepInv(run, limitMs, steps, i);
    hide IsRun, DrawsTokens;
    TokensOfInv(run[i]);
    hide GameInv, TokensLong;
    LookupsFindPlayers(run[i].tokens, id, token);
  }

  lemma TokensOfInv(g: Game)
    requires GameInv(g)
    ensures TokensInv(g.tokens)
  {
  }

  // ---------------------------------------------------------------------------------------------
  // Retirement

  /** No live dog has been idle for the limit. */
  ghost predicate AllActive(g: Game, limitMs: nat) {
    forall k, dog :: k in g.sessions && dog in g.sessions[k].dogs ==> g.sessions[k].dogs[dog].afkTime < limitMs
  }

  lemma AdvancedClocks(roads: seq<Road>, d: DogState, deltaMs: nat)
    ensures Advanced(roads, d, deltaMs).afkTime <= d.afkTime + deltaMs
  {
  }

  lemma ActiveMeansNobodyIdle(h: Game, limitMs: nat)
    requires AllActive(h, limitMs)
    ensures IsAfkList(h, limitMs, [])
  {
  }

  lemma NoRetirements(h: Game)
    ensures AfterRetireAll(h, []) == h
  {
  }

  /** If nobody is idle for the limit after the ticks, the ticker retires nobody. */
  lemma TickerWithoutRetirements(g: Game, limitMs: nat, deltaMs: nat, hits: map<MapId, seq<Hit>>)
    requires TicksAreFine(g, deltaMs, hits) && AllActive(AfterTicks(g, deltaMs, hits), limitMs)
    ensures Legal(g, limitMs, Ticker(deltaMs, hits, []))
    ensures After(g, limitMs, Ticker(deltaMs, hits, [])) == AfterTicks(g, deltaMs, hits)
  {
    hide IsAfkList, TicksAreFine, AfterTicks, AllActive, AfterRetireAll;
    ActiveMeansNobodyIdle(AfterTicks(g, deltaMs, hits), limitMs);
    NoRetirements(AfterTicks(g, deltaMs, hits));
  }

  lemma TickedClocks(g: Game, deltaMs: nat, hits: map<MapId, seq<Hit>>, k: MapId, dog: nat)
    requires TicksAreFine(g, deltaMs, hits) && k in g.sessions && dog in g.sessions[k].dogs
    ensures var t := AfterTicks(g, deltaMs, hits).sessions[k];
            dog in t.dogs && t.dogs[dog].afkTime <= g.sessions[k].dogs[dog].afkTime + deltaMs
  {
    hide Advanced, Replay, AreHits;
    TickIsAfterTick(g, deltaMs, hits, k);
    TickAdvancesDogs(g.maps[k], g.sessions[k], deltaMs, hits[k], dog);
    AdvancedClocks(g.maps[k].roads, g.sessions[k].dogs[dog], deltaMs);
  }

  /** After a ticker callback no live dog has reached the limit. */
  lemma TickerLeavesActive(g: Game, limitMs: nat, delta: nat, hits: map<MapId, seq<Hit>>, afk: seq<nat>)
    requires GameInv(g) && Legal(g, limitMs, Ticker(delta, hits, afk))
    ensures AllActive(After(g, limitMs, Ticker(delta, hits, afk)), limitMs)
  {
    hide TicksAreFine, AfterTicks, AfterRetireAll, GameInv;
    TicksKeepInv(g, delta, hits);
    var h := AfterTicks(g, delta, hits);
    AfkListMembers(h, limitMs, afk);
    RetireAllEffect(h, afk);
    hide IsAfkList;
    var r := AfterRetireAll(h, afk);
    forall k, dog | k in r.sessions && dog in r.sessions[k].dogs ensures r.sessions[k].dogs[dog].afkTime < limitMs {
      ActiveIfLeft(h, limitMs, afk, r, k, dog);
    }
  }

  lemma ActiveIfLeft(h: Game, limitMs: nat, afk: seq<nat>, r: Game, k: MapId, dog: nat)
    requires GameInv(h) && GameInv(r) && IsAfkList(h, limitMs, afk) && k in h.sessions && k in r.sessions
    requires OnlyLeft(h.sessions[k], r.sessions[k]) && dog in r.sessions[k].dogs
    requires forall id :: id in r.tokens.players ==>
        id in h.tokens.players && id !in afk && r.tokens.players[id] == h.tokens.players[id]
    ensures r.sessions[k].dogs[dog].afkTime < limitMs
  {
    DogsHavePlayers(r, k, dog);
    var id := r.nameToId[r.sessions[k].dogs[dog].name];
    InvHasTokens(h, id);
    assert DogOf(h, id) == r.sessions[k].dogs[dog];
  }

  /** Idle for the limit, but less than one tick longer, and alive at least as long. */
  predicate IdleJustEnough(d: DogState, limitMs: nat, delta: nat) {
    limitMs <= d.afkTime < limitMs + delta && d.liveTime >= limitMs
  }

  /** The player has left, and the session files the dog as it was. */
  ghost predicate IsFiled(r: Game, p: Player, d: DogState) {
    && p.id !in r.tokens.players
    && p.mapId in r.sessions && p.dogId !in r.sessions[p.mapId].dogs
    && p.dogId in r.sessions[p.mapId].history.retired && r.sessions[p.mapId].history.retired[p.dogId] == d
  }

  /** Who retires in a ticker callback had been idle for the limit, but less than one tick longer, and has
      lived at least as long; the session files the dog as it was. */
  lemma RetirementBound(g: Game, limitMs: nat, delta: nat, hits: map<MapId, seq<Hit>>, afk: seq<nat>, id: nat)
    requires GameInv(g) && AllActive(g, limitMs) && Legal(g, limitMs, Ticker(delta, hits, afk)) && id in afk
    ensures var h := AfterTicks(g, delta, hits);
            && HasDogState(h, id) && IdleJustEnough(DogOf(h, id), limitMs, delta)
            && IsFiled(After(g, limitMs, Ticker(delta, hits, afk)), h.tokens.players[id], DogOf(h, id))
  {
    hide TicksAreFine, AfterTicks, GameInv, AllActive, AfterRetireAll, IsFiled, IdleJustEnough;
    TicksKeepInv(g, delta, hits);
    IdleIsListed(AfterTicks(g, delta, hits), limitMs, afk, id);
    RetiredIsFiled(AfterTicks(g, delta, hits), limitMs, afk, id);
    IdleBound(g, limitMs, delta, hits, id);
  }

  lemma IdleIsListed(h: Game, limitMs: nat, afk: seq<nat>, id: nat)
    requires IsAfkList(h, limitMs, afk) && id in afk
    ensures HasDogState(h, id) && IsAfk(DogOf(h, id), limitMs)
  {
  }

  /** Who is on the list leaves. */
  lemma RetiredIsFiled(h: Game, limitMs: nat, afk: seq<nat>, id: nat)
    requires GameInv(h) && IsAfkList(h, limitMs, afk) && id in afk && HasDogState(h, id)
    ensures IsFiled(AfterRetireAll(h, afk), h.tokens.players[id], DogOf(h, id))
  {
    AfkListMembers(h, limitMs, afk);
    PlayersHaveDogs(h, id);
    hide GameInv, IsAfkList, AfterRetireAll;
    RetireAllEffect(h, afk);
    RetiredIsGone(h, AfterRetireAll(h, afk), id);
  }

  lemma RetiredIsGone(h: Game, r: Game, id: nat)
    requires GameInv(h) && GameInv(r) && HasDogState(h, id) && id !in r.tokens.players
    requires r.sessions.Keys == h.sessions.Keys
    requires OnlyLeft(h.sessions[h.tokens.players[id].mapId], r.sessions[h.tokens.players[id].mapId])
    requires forall j :: j in r.tokens.players ==> j in h.tokens.players && r.tokens.players[j] == h.tokens.players[j]
    ensures h.tokens.players[id].dogId !in r.sessions[h.tokens.players[id].mapId].dogs
  {
    var p := h.tokens.players[id];
    assert DogsInv(IndexOf(h));
    if p.dogId in r.sessions[p.mapId].dogs {
      DogsHavePlayers(r, p.mapId, p.dogId);
    }
  }

  lemma IdleBound(g: Game, limitMs: nat, delta: nat, hits: map<MapId, seq<Hit>>, id: nat)
    requires GameInv(g) && AllActive(g, limitMs) && TicksAreFine(g, delta, hits)
    requires var h := AfterTicks(g, delta, hits); GameInv(h) && HasDogState(h, id) && IsAfk(DogOf(h, id), limitMs)
    ensures IdleJustEnough(DogOf(AfterTicks(g, delta, hits), id), limitMs, delta)
  {
    hide TicksAreFine;
    var h := AfterTicks(g, delta, hits);
    var p := h.tokens.players[id];
    InvHasTokens(g, id);
    TickedClocks(g, delta, hits, p.mapId, p.dogId);
    assert SessionInv(h.maps[p.mapId], h.sessions[p.mapId]);
    assert DogInv(h.maps[p.mapId], DogOf(h, id));
  }

  lemma StepKeepsActive(g: Game, limitMs: nat, step: Step)
    requires GameInv(g) && AllActive(g, limitMs) && limitMs > 0 && Legal(g, limitMs, step)
    ensures AllActive(After(g, limitMs, step), limitMs)
  {
    hide GameInv, TicksAreFine;
    match step {
      case Join(name, k, spawn, token, loots) =>
        if name !in g.nameToId {
          var dog := NewDog(g.nextDog, name, spawn, g.maps[k].bagCapacity);
          AddLootsKeepsDogs(AfterAddDog(SessionOf(g, k), dog), loots);
        }
      case Order(id, direction) =>
      case NewLoot(k, loots) => AddLootsKeepsDogs(SessionOf(g, k), loots);
      case Ticker(delta, hits, afk) => TickerLeavesActive(g, limitMs, delta, hits, afk);
    }
  }

  /** With a positive limit, no live dog is ever idle for the limit, in any state of any run that starts so. */
  lemma {:induction false} RunsStayActive(run: seq<Game>, limitMs: nat, steps: seq<Step>, i: nat)
    requires IsRun(run, limitMs, steps) && i < |run| && limitMs > 0 && AllActive(run[0], limitMs)
    ensures AllActive(run[i], limitMs)
  {
    hide GameInv, Legal, After, AllActive;
    if i > 0 {
      RunsStayActive(run, limitMs, steps, i - 1);
      RunsKeepInv(run, limitMs, steps, i - 1);
      StepKeepsActive(run[i - 1], limitMs, steps[i - 1]);
    }
  }
}
