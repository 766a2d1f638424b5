/** The books of whole runs: every object in one place, every point of score accounted for, every bag clean. */
module RunLedger {
  import opened Wrappers
  import opened RoadMap
  import opened Dogs
  import opened Sums
  import opened SessionModel
  import opened SessionLedger
  import opened SessionContest
  import opened SessionTick
  import opened Registry
  import opened GameModel
  import opened GameRuns

  lemma InvBounds(g: Game, k: MapId, n: nat)
    requires GameInv(g) && g.nextDog <= n && g.nextLoot <= n
    ensures Bounded(SessionOf(g, k), n)
    ensures SessionOf(g, k).history.retired.Keys !! SessionOf(g, k).dogs.Keys
  {
    if k in g.sessions {
      assert IdsBelow(g.sessions[k], g.nextDog, g.nextLoot) && SessionInv(g.maps[k], g.sessions[k]);
    }
  }

  lemma AddLootsBalance(g: Game, s: Session, k: MapId, loots: seq<Loot>, w: Weight, n: nat)
    requires Bounded(s, n) && FreshLoots(loots, g.nextLoot) && g.nextLoot + |loots| <= n
    requires forall id :: id in s.lost ==> id < g.nextLoot
    ensures Balanced(s, AfterAddLoots(s, loots), w, n)
  {
    AddLootsBalances(s, loots, g.nextLoot, w, n);
  }

  /** Both books at once: objects for any weight, and score against exchanged value. */
  ghost predicate BooksBalance(price: Weight, s: Session, t: Session, w: Weight, n: nat) {
    Balanced(s, t, w, n) && ScoreBalanced(price, s, t, n)
  }

  lemma JoinBooks(g: Game, name: string, k: MapId, spawn: Geometry.Vec, loots: seq<Loot>, price: Weight, w: Weight,
      n: nat)
    requires GameInv(g) && k in g.maps && NewLoots(g.maps[k], loots, g.nextLoot)
    requires g.nextDog + 1 <= n && g.nextLoot + |loots| <= n
    ensures BooksBalance(price, SessionOf(g, k), JoinedSession(g, name, k, spawn, loots), w, n)
  {
    hide GameInv, Balanced, ScoreBalanced, AfterAddLoots;
    var s := SessionOf(g, k);
    var d := NewDog(g.nextDog, name, spawn, g.maps[k].bagCapacity);
    var t := AfterAddDog(s, d);
    InvBounds(g, k, n);
    SessionOfInv(g, k);
    AddDogBalances(s, d, w, n);
    AddDogScores(price, s, d, n);
    AddLootsBalance(g, t, k, loots, w, n);
    AddLootsScores(price, t, loots, n);
    BooksChain(price, s, t, AfterAddLoots(t, loots), w, n);
  }

  lemma BooksChain(price: Weight, s: Session, t: Session, u: Session, w: Weight, n: nat)
    requires BooksBalance(price, s, t, w, n) && BooksBalance(price, t, u, w, n)
    ensures BooksBalance(price, s, u, w, n)
  {
  }

  lemma SteerBooks(price: Weight, s: Session, dog: nat, direction: string, dogSpeed: real, w: Weight, n: nat)
    requires dog in s.dogs
    ensures BooksBalance(price, s, AfterSteer(s, dog, direction, dogSpeed), w, n)
  {
    var t := AfterSteer(s, dog, direction, dogSpeed);
    SumAgrees(s.dogs, t.dogs, InBag(w), n);
    SumAgrees(s.dogs, t.dogs, Score(), n);
  }

  lemma TickBooks(m: GameMap, s: Session, deltaMs: nat, hits: seq<Hit>, price: Weight, w: Weight, n: nat)
    requires Bounded(s, n) && TickIsFine(m, s, deltaMs, hits) && Prices(price, m.lootValues)
    ensures BooksBalance(price, s, AfterTick(m, s, deltaMs, hits).s, w, n)
    ensures Bounded(AfterTick(m, s, deltaMs, hits).s, n)
  {
    hide Advanced, AreHits, Balanced, ScoreBalanced, Prices;
    var moved := Moved(m, s, deltaMs);
    MoveBalances(m, s, deltaMs, w, n);
    MoveScores(m, price, s, deltaMs, n);
    ReplayBalances(m.lootValues, moved, hits, w, n);
    ReplayScores(m.lootValues, moved, hits, price, n);
    BooksChain(price, s, moved, AfterTick(m, s, deltaMs, hits).s, w, n);
  }

  lemma RetireBooks(g: Game, id: nat, k: MapId, price: Weight, w: Weight, n: nat)
    requires GameInv(g) && id in g.tokens.players && id in g.tokens.ofId
    requires g.nextDog <= n && g.nextLoot <= n
    ensures BooksBalance(price, SessionOf(g, k), SessionOf(AfterRetire(g, id), k), w, n)
  {
    hide GameInv, Balanced, ScoreBalanced, AfterRemoveDog;
    RetireEffect(g, id);
    var p := g.tokens.players[id];
    if k == p.mapId {
      InvBounds(g, k, n);
      RemoveDogBalances(g.sessions[k], p.dogId, w, n);
      RemoveDogScores(price, g.sessions[k], p.dogId, n);
    } else {
      SameBooks(price, SessionOf(g, k), w, n);
    }
  }

  lemma SameBooks(price: Weight, s: Session, w: Weight, n: nat)
    ensures BooksBalance(price, s, s, w, n)
  {
  }

  lemma {:induction false} RetireAllBooks(g: Game, ids: seq<nat>, k: MapId, price: Weight, w: Weight, n: nat)
    requires GameInv(g) && g.nextDog <= n && g.nextLoot <= n
    requires forall i :: 0 <= i < |ids| ==> ids[i] in g.tokens.players
    requires forall i, j :: 0 <= i < j < |ids| ==> ids[i] != ids[j]
    ensures BooksBalance(price, SessionOf(g, k), SessionOf(AfterRetireAll(g, ids), k), w, n)
    ensures AfterRetireAll(g, ids).nextDog == g.nextDog && AfterRetireAll(g, ids).nextLoot == g.nextLoot
  {
    hide GameInv, BooksBalance, SessionOf;
    if ids == [] {
      SameBooks(price, SessionOf(g, k), w, n);
    } else {
      var front, id := ids[..|ids| - 1], ids[|ids| - 1];
      RetireAllBooks(g, front, k, price, w, n);
      RetireAllEffect(g, front);
      var h := AfterRetireAll(g, front);
      InvHasTokens(h, id);
      RetireBooks(h, id, k, price, w, n);
      BooksChain(price, SessionOf(g, k), SessionOf(h, k), SessionOf(AfterRetire(h, id), k), w, n);
    }
  }

  lemma TickerBooks(g: Game, limitMs: nat, delta: nat, hits: map<MapId, seq<Hit>>, afk: seq<nat>, k: MapId,
      price: Weight, w: Weight, n: nat)
    requires GameInv(g) && Legal(g, limitMs, Ticker(delta, hits, afk)) && k in g.maps
    requires Prices(price, g.maps[k].lootValues)
    requires g.nextDog <= n && g.nextLoot <= n
    ensures var h := After(g, limitMs, Ticker(delta, hits, afk));
            && BooksBalance(price, SessionOf(g, k), SessionOf(h, k), w, n)
            && h.nextDog == g.nextDog && h.nextLoot == g.nextLoot
  {
    hide GameInv, TicksAreFine, BooksBalance, SessionOf, Prices;
    var h := AfterTicks(g, delta, hits);
    TicksKeepInv(g, delta, hits);
    AfkListMembers(h, limitMs, afk);
    RetireAllBooks(h, afk, k, price, w, n);
    TicksBooks(g, delta, hits, k, price, w, n);
    BooksChain(price, SessionOf(g, k), SessionOf(h, k), SessionOf(AfterRetireAll(h, afk), k), w, n);
  }

  lemma TicksBooks(g: Game, delta: nat, hits: map<MapId, seq<Hit>>, k: MapId, price: Weight, w: Weight, n: nat)
    requires GameInv(g) && TicksAreFine(g, delta, hits) && k in g.maps && Prices(price, g.maps[k].lootValues)
    requires g.nextDog <= n && g.nextLoot <= n
    ensures BooksBalance(price, SessionOf(g, k), SessionOf(AfterTicks(g, delta, hits), k), w, n)
  {
    hide GameInv, BooksBalance, AfterTick, TickIsFine, Prices;
    InvBounds(g, k, n);
    if k in g.sessions {
      TickIsAfterTick(g, delta, hits, k);
      TickBooks(g.maps[k], g.sessions[k], delta, hits[k], price, w, n);
    } else {
      SameBooks(price, SessionOf(g, k), w, n);
    }
  }

  /** No step of the game disturbs the books of any map. */
  lemma StepBooks(g: Game, limitMs: nat, step: Step, k: MapId, price: Weight, w: Weight, n: nat)
    requires GameInv(g) && Legal(g, limitMs, step) && k in g.maps && Prices(price, g.maps[k].lootValues)
    requires After(g, limitMs, step).nextDog <= n && After(g, limitMs, step).nextLoot <= n
    ensures BooksBalance(price, SessionOf(g, k), SessionOf(After(g, limitMs, step), k), w, n)
    ensures g.nextDog <= n && g.nextLoot <= n
  {
    hide GameInv, TicksAreFine, BooksBalance, AfterAddLoots, AfterTicks, AfterRetireAll, Prices;
    match step {
      case Join(name, j, spawn, token, loots) =>
        if name !in g.nameToId && j == k {
          JoinBooks(g, name, k, spawn, loots, price, w, n);
        } else {
          SameBooks(price, SessionOf(g, k), w, n);
        }
      case Order(id, direction) =>
        var p := g.tokens.players[id];
        if p.mapId == k {
          SteerBooks(price, g.sessions[k], p.dogId, direction, g.maps[k].dogSpeed, w, n);
        } else {
          SameBooks(price, SessionOf(g, k), w, n);
        }
      case NewLoot(j, loots) =>
        if j == k {
          NewLootBooks(g, k, loots, price, w, n);
        } else {
          SameBooks(price, SessionOf(g, k), w, n);
        }
      case Ticker(delta, hits, afk) =>
        TickerCounters(g, limitMs, delta, hits, afk);
        TickerBooks(g, limitMs, delta, hits, afk, k, price, w, n);
    }
  }

  lemma TickerCounters(g: Game, limitMs: nat, delta: nat, hits: map<MapId, seq<Hit>>, afk: seq<nat>)
    requires Legal(g, limitMs, Ticker(delta, hits, afk))
    ensures var h := After(g, limitMs, Ticker(delta, hits, afk)); h.nextDog == g.nextDog && h.nextLoot == g.nextLoot
  {
    hide TicksAreFine;
    RetireAllCounters(AfterTicks(g, delta, hits), afk);
  }

  lemma {:induction false} RetireAllCounters(g: Game, ids: seq<nat>)
    ensures AfterRetireAll(g, ids).nextDog == g.nextDog && AfterRetireAll(g, ids).nextLoot == g.nextLoot
  {
    if ids != [] {
      RetireAllCounters(g, ids[..|ids| - 1]);
    }
  }

  lemma NewLootBooks(g: Game, k: MapId, loots: seq<Loot>, price: Weight, w: Weight, n: nat)
    requires GameInv(g) && k in g.sessions && k in g.maps && NewLoots(g.maps[k], loots, g.nextLoot)
    requires g.nextDog <= n && g.nextLoot + |loots| <= n
    ensures BooksBalance(price, SessionOf(g, k), AfterAddLoots(g.sessions[k], loots), w, n)
  {
    InvBounds(g, k, n);
    SessionOfInv(g, k);
    AddLootsBalance(g, g.sessions[k], k, loots, w, n);
    AddLootsScores(price, g.sessions[k], loots, n);
  }

  /** Over any run, for any weight: what appeared on a map is what its holdings grew by, and the scores grew
      by the price of what was exchanged. */
  lemma {:induction false} RunBooks(run: seq<Game>, limitMs: nat, steps: seq<Step>, i: nat, k: MapId, price: Weight,
      w: Weight, n: nat)
    requires IsRun(run, limitMs, steps) && i < |run| && k in run[0].maps && Prices(price, run[0].maps[k].lootValues)
    requires run[i].nextDog <= n && run[i].nextLoot <= n
    ensures BooksBalance(price, SessionOf(run[0], k), SessionOf(run[i], k), w, n)
  {
    hide GameInv, Legal, After, BooksBalance, SessionOf, Prices;
    if i == 0 {
      SameBooks(price, SessionOf(run[0], k), w, n);
    } else {
      RunsKeepInv(run, limitMs, steps, i - 1);
      StepBooks(run[i - 1], limitMs, steps[i - 1], k, price, w, n);
      RunBooks(run, limitMs, steps, i - 1, k, price, w, n);
      BooksChain(price, SessionOf(run[0], k), SessionOf(run[i - 1], k), SessionOf(run[i], k), w, n);
    }
  }

  // ---------------------------------------------------------------------------------------------
  // From a new game

  /** The ledger: in any state of any run from a new game, the value of all loot that ever appeared on a map is
      the value lying there + the value in live bags + the live scores + the scores and bag values of the
      retired dogs.  Any weight that gives objects of the types of the map the value in its table will do. */
  lemma ValueLedger(run: seq<Game>, limitMs: nat, steps: seq<Step>, i: nat, k: MapId, price: Weight, n: nat)
    requires IsRun(run, limitMs, steps) && i < |run| && run[0] == NewGame(run[0].maps) && k in run[0].maps
    requires var values := run[0].maps[k].lootValues;
             forall l: Loot :: l.lootType < |values| ==> price(l) == values[l.lootType]
    requires run[i].nextDog <= n && run[i].nextLoot <= n
    ensures var s := SessionOf(run[i], k);
            SumSeq(s.history.generated, price) ==
            Sum(s.lost, price, n) + Sum(s.dogs, InBag(price), n) + Sum(s.dogs, Score(), n)
            + Sum(s.history.retired, Score(), n) + Sum(s.history.retired, InBag(price), n)
  {
    hide GameInv, Legal, After;
    RunBooks(run, limitMs, steps, i, k, price, price, n);
    EmptyBooks(price, n);
  }

  lemma EmptyBooks(w: Weight, n: nat)
    ensures Holdings(EMPTY_SESSION, w, n) == 0 && Appeared(EMPTY_SESSION, w) == 0 && Scores(EMPTY_SESSION, n) == 0
  {
    var lost: map<nat, Loot> := EMPTY_SESSION.lost;
    SumEmpty<Loot>(w, n);
    SumEmpty<DogState>(InBag(w), n);
    SumEmpty<DogState>(Score(), n);
  }

  function Is(id: nat): Weight { (l: Loot) => if l.id == id then 1 else 0 }

  /** Ids of appeared objects come from the counter, and no two maps share one. */
  ghost predicate AppearedOnce(g: Game) {
    && (forall k, id: nat :: k in g.sessions ==> Appeared(g.sessions[k], Is(id)) <= 1)
    && (forall k, id: nat :: k in g.sessions && Appeared(g.sessions[k], Is(id)) > 0 ==> id < g.nextLoot)
    && (forall j, k, id: nat :: j in g.sessions && k in g.sessions && j != k ==>
          Appeared(g.sessions[j], Is(id)) + Appeared(g.sessions[k], Is(id)) <= 1)
  }

  lemma {:induction false} LootsAppear(s: Session, loots: seq<Loot>, first: nat, id: nat)
    requires FreshLoots(loots, first)
    ensures Appeared(AfterAddLoots(s, loots), Is(id)) ==
            Appeared(s, Is(id)) + if first <= id < first + |loots| then 1 else 0
  {
    if loots != [] {
      LootsAppear(s, loots[..|loots| - 1], first, id);
      SumSeqOne(AfterAddLoots(s, loots[..|loots| - 1]).history.generated, loots[|loots| - 1], Is(id));
    }
  }

  /** One session gets new objects from the counter. */
  lemma AppearingOnce(g: Game, k: MapId, s: Session, loots: seq<Loot>, h: Game)
    requires AppearedOnce(g) && FreshLoots(loots, g.nextLoot)
    requires s.history.generated == SessionOf(g, k).history.generated
    requires h.sessions == g.sessions[k := AfterAddLoots(s, loots)] && h.nextLoot == g.nextLoot + |loots|
    ensures AppearedOnce(h)
  {
    hide AfterAddLoots, Is, FreshLoots, Appeared;
    forall id: nat ensures Appeared(h.sessions[k], Is(id)) ==
                           Appeared(SessionOf(g, k), Is(id)) + if g.nextLoot <= id < h.nextLoot then 1 else 0
    {
      LootsAppear(s, loots, g.nextLoot, id);
      SameGeneratedSameAppearance(s, SessionOf(g, k), id);
    }
    forall id: nat ensures Appeared(EMPTY_SESSION, Is(id)) == 0 {
      NothingAppeared(id);
    }
  }

  lemma SameGeneratedSameAppearance(s: Session, t: Session, id: nat)
    requires s.history.generated == t.history.generated
    ensures Appeared(s, Is(id)) == Appeared(t, Is(id))
  {
  }

  lemma NothingAppeared(id: nat)
    ensures Appeared(EMPTY_SESSION, Is(id)) == 0
  {
  }

  /** What appeared stays the same. */
  ghost predicate SameAppearance(g: Game, h: Game) {
    && h.nextLoot == g.nextLoot && h.sessions.Keys == g.sessions.Keys
    && forall k :: k in g.sessions ==> h.sessions[k].history.generated == g.sessions[k].history.generated
  }

  lemma SameAppearanceKeepsOnce(g: Game, h: Game)
    requires AppearedOnce(g) && SameAppearance(g, h)
    ensures AppearedOnce(h)
  {
  }

  lemma {:induction false} ReplayGeneratesNothing(values: seq<nat>, s: Session, hits: seq<Hit>)
    requires DogsPresent(s, hits) && Replay(values, s, hits).Fine?
    ensures Replay(values, s, hits).s.history.generated == s.history.generated
  {
    if hits != [] {
      ReplayGeneratesNothing(values, s, hits[..|hits| - 1]);
    }
  }

  lemma {:induction false} RetireAllGeneratesNothing(g: Game, ids: seq<nat>)
    requires GameInv(g)
    requires forall i :: 0 <= i < |ids| ==> ids[i] in g.tokens.players
    requires forall i, j :: 0 <= i < j < |ids| ==> ids[i] != ids[j]
    ensures SameAppearance(g, AfterRetireAll(g, ids))
  {
    hide GameInv, AfterRetire;
    if ids != [] {
      var front, id := ids[..|ids| - 1], ids[|ids| - 1];
      RetireAllGeneratesNothing(g, front);
      RetireAllEffect(g, front);
      InvHasTokens(AfterRetireAll(g, front), id);
      RetireGeneratesNothing(AfterRetireAll(g, front), id);
    }
  }

  lemma RetireGeneratesNothing(g: Game, id: nat)
    requires HasDogState(g, id)
    ensures SameAppearance(g, AfterRetire(g, id))
  {
  }

  lemma TickerGeneratesNothing(g: Game, limitMs: nat, delta: nat, hits: map<MapId, seq<Hit>>, afk: seq<nat>)
    requires GameInv(g) && Legal(g, limitMs, Ticker(delta, hits, afk))
    ensures SameAppearance(g, After(g, limitMs, Ticker(delta, hits, afk)))
  {
    hide GameInv, AfterTick, TickIsFine;
    var h := AfterTicks(g, delta, hits);
    TicksKeepInv(g, delta, hits);
    forall k | k in g.sessions ensures h.sessions[k].history.generated == g.sessions[k].history.generated {
      TickIsAfterTick(g, delta, hits, k);
      TickGeneratesNothing(g.maps[k], g.sessions[k], delta, hits[k]);
    }
    AfkListMembers(h, limitMs, afk);
    RetireAllGeneratesNothing(h, afk);
  }

  lemma TickGeneratesNothing(m: GameMap, s: Session, deltaMs: nat, hits: seq<Hit>)
    requires TickIsFine(m, s, deltaMs, hits)
    ensures AfterTick(m, s, deltaMs, hits).s.history.generated == s.history.generated
  {
    hide AreHits;
    ReplayGeneratesNothing(m.lootValues, Moved(m, s, deltaMs), hits);
  }

  lemma StepKeepsAppearedOnce(g: Game, limitMs: nat, step: Step)
    requires GameInv(g) && AppearedOnce(g) && Legal(g, limitMs, step)
    ensures AppearedOnce(After(g, limitMs, step))
  {
    hide GameInv, AppearedOnce, TicksAreFine, AfterTicks, AfterRetireAll, AfterAddLoots;
    var h := After(g, limitMs, step);
    match step {
      case Join(name, k, spawn, token, loots) =>
        if name !in g.nameToId {
          var s := AfterAddDog(SessionOf(g, k), NewDog(g.nextDog, name, spawn, g.maps[k].bagCapacity));
          AppearingOnce(g, k, s, loots, h);
        }
      case Order(id, direction) => SameAppearanceKeepsOnce(g, h);
      case NewLoot(k, loots) => AppearingOnce(g, k, g.sessions[k], loots, h);
      case Ticker(delta, hits, afk) =>
        TickerGeneratesNothing(g, limitMs, delta, hits, afk);
        SameAppearanceKeepsOnce(g, h);
    }
  }

  lemma {:induction false} RunAppearedOnce(run: seq<Game>, limitMs: nat, steps: seq<Step>, i: nat)
    requires IsRun(run, limitMs, steps) && i < |run| && AppearedOnce(run[0])
    ensures AppearedOnce(run[i])
  {
    hide GameInv, Legal, After, AppearedOnce;
    if i > 0 {
      RunAppearedOnce(run, limitMs, steps, i - 1);
      RunsKeepInv(run, limitMs, steps, i - 1);
      StepKeepsAppearedOnce(run[i - 1], limitMs, steps[i - 1]);
    }
  }

  /** In any state of any run from a new game, an object that appeared on a map is in exactly one place of that
      map's session: on the ground, in one slot of one live bag, exchanged, or gone with one retired dog. */
  lemma EachLootInOnePlace(run: seq<Game>, limitMs: nat, steps: seq<Step>, i: nat, k: MapId, id: nat, n: nat)
    requires IsRun(run, limitMs, steps) && i < |run| && run[0] == NewGame(run[0].maps) && k in run[i].sessions
    requires run[i].nextDog <= n && run[i].nextLoot <= n
    ensures Holdings(run[i].sessions[k], Is(id), n) == Appeared(run[i].sessions[k], Is(id)) <= 1
  {
    assert AppearedOnce(run[0]);
    RunAppearedOnce(run, limitMs, steps, i);
    HoldingsAreAppearances(run, limitMs, steps, i, k, id, n);
    hide GameInv, Legal, After, Holdings, Appeared, Is;
  }

  /** And it is in no place of another session. */
  lemma NoLootInTwoSessions(run: seq<Game>, limitMs: nat, steps: seq<Step>, i: nat, j: MapId, k: MapId, id: nat, n: nat)
    requires IsRun(run, limitMs, steps) && i < |run| && run[0] == NewGame(run[0].maps)
    requires j in run[i].sessions && k in run[i].sessions && j != k
    requires run[i].nextDog <= n && run[i].nextLoot <= n
    ensures Holdings(run[i].sessions[j], Is(id), n) + Holdings(run[i].sessions[k], Is(id), n) <= 1
  {
    assert AppearedOnce(run[0]);
    RunAppearedOnce(run, limitMs, steps, i);
    HoldingsAreAppearances(run, limitMs, steps, i, j, id, n);
    HoldingsAreAppearances(run, limitMs, steps, i, k, id, n);
    hide GameInv, Legal, After, Holdings, Appeared, Is;
  }

  lemma HoldingsAreAppearances(run: seq<Game>, limitMs: nat, steps: seq<Step>, i: nat, k: MapId, id: nat, n: nat)
    requires IsRun(run, limitMs, steps) && i < |run| && run[0] == NewGame(run[0].maps) && k in run[i].sessions
    requires run[i].nextDog <= n && run[i].nextLoot <= n
    ensures Holdings(run[i].sessions[k], Is(id), n) == Appeared(run[i].sessions[k], Is(id))
  {
    hide Legal, After;
    RunsKeepInv(run, limitMs, steps, i);
    RunBooks(run, limitMs, steps, i, k, FromTable(run[0].maps[k].lootValues), Is(id), n);
    EmptyBooks(Is(id), n);
    hide GameInv;
  }

  // ---------------------------------------------------------------------------------------------
  // Empty slots

  ghost predicate AllClean(g: Game) { forall k :: k in g.sessions ==> NoPhantoms(g.sessions[k]) }

  /** No session's tick has an object passed twice with room. */
  ghost predicate UncontestedTicks(g: Game, delta: nat, hits: map<MapId, seq<Hit>>) {
    forall k :: k in g.sessions && k in g.maps && k in hits ==>
      var moved := Moved(g.maps[k], g.sessions[k], delta);
      DogsPresent(moved, hits[k]) ==> !Contested(moved, hits[k])
  }

  lemma OneTickCleanIff(m: GameMap, s: Session, delta: nat, hits: seq<Hit>)
    requires SessionInv(m, s) && m.Valid() && NoPhantoms(s) && TickIsFine(m, s, delta, hits)
    ensures NoPhantoms(AfterTick(m, s, delta, hits).s) <==> !Contested(Moved(m, s, delta), hits)
  {
    var moved := Moved(m, s, delta);
    MovedKeepsInv(m, s, delta);
    forall id | id in moved.dogs ensures BagKnown(moved.dogs[id].bag, m.lootValues) && NoPhantom(moved.dogs[id].bag) {
      AdvancedKeepsRest(m.roads, s.dogs[id], delta);
      assert DogInv(m, s.dogs[id]);
    }
    HitsArePresent(m, moved, hits);
    hide Advanced, AreHits, Contested, Replay;
    CleanIffUncontested(m.lootValues, moved, hits);
  }

  /** In a game without empty slots, a ticker callback leaves none among the live dogs' sessions before it
      retires anybody, exactly when no session's tick is contested. */
  lemma TicksCleanIff(g: Game, delta: nat, hits: map<MapId, seq<Hit>>)
    requires GameInv(g) && AllClean(g) && TicksAreFine(g, delta, hits)
    ensures AllClean(AfterTicks(g, delta, hits)) <==> UncontestedTicks(g, delta, hits)
  {
    hide GameInv, AfterTick, Moved, Contested, TickIsFine, NoPhantoms;
    forall k | k in g.sessions ensures CleanAndUncontested(g, delta, hits, k) {
      OneSessionCleanIff(g, delta, hits, k);
    }
    var h := AfterTicks(g, delta, hits);
    assert h.sessions.Keys == g.sessions.Keys;
  }

  /** A session is left clean exactly when its tick is not contested. */
  ghost predicate CleanAndUncontested(g: Game, delta: nat, hits: map<MapId, seq<Hit>>, k: MapId)
    requires TicksAreFine(g, delta, hits) && k in g.sessions
  {
    var moved := Moved(g.maps[k], g.sessions[k], delta);
    DogsPresent(moved, hits[k])
    && (NoPhantoms(AfterTicks(g, delta, hits).sessions[k]) <==> !Contested(moved, hits[k]))
  }

  lemma OneSessionCleanIff(g: Game, delta: nat, hits: map<MapId, seq<Hit>>, k: MapId)
    requires GameInv(g) && AllClean(g) && TicksAreFine(g, delta, hits) && k in g.sessions
    ensures CleanAndUncontested(g, delta, hits, k)
  {
    assert SessionInv(g.maps[k], g.sessions[k]) && g.maps[k].Valid();
    hide GameInv, AfterTick, Contested, SessionInv, AreHits, NoPhantoms;
    TickIsAfterTick(g, delta, hits, k);
    OneTickCleanIff(g.maps[k], g.sessions[k], delta, hits[k]);
  }

  /** A session without empty slots gets through an uncontested tick without a fault. */
  lemma UncontestedTickIsFine(m: GameMap, s: Session, delta: nat, hits: seq<Hit>)
    requires SessionInv(m, s) && m.Valid() && NoPhantoms(s) && AreHits(m, Moved(m, s, delta), hits)
    ensures DogsPresent(Moved(m, s, delta), hits)
    ensures !Contested(Moved(m, s, delta), hits) ==> TickIsFine(m, s, delta, hits)
  {
    var moved := Moved(m, s, delta);
    MovedKeepsInv(m, s, delta);
    forall id | id in moved.dogs ensures BagKnown(moved.dogs[id].bag, m.lootValues) && NoPhantom(moved.dogs[id].bag) {
      AdvancedKeepsRest(m.roads, s.dogs[id], delta);
      assert DogInv(m, s.dogs[id]);
    }
    HitsArePresent(m, moved, hits);
    hide Advanced, AreHits, Contested, Replay;
    CleanIffUncontested(m.lootValues, moved, hits);
  }

  /** Retiring leaves the dogs that stay as they were. */
  lemma RetiringKeepsClean(h: Game, limitMs: nat, afk: seq<nat>)
    requires GameInv(h) && AllClean(h) && IsAfkList(h, limitMs, afk)
    ensures AllClean(AfterRetireAll(h, afk))
  {
    AfkListMembers(h, limitMs, afk);
    hide GameInv, NoPhantom, AfterRetireAll, IsAfkList;
    RetireAllEffect(h, afk);
    var r := AfterRetireAll(h, afk);
    forall k, dog | k in r.sessions && dog in r.sessions[k].dogs ensures NoPhantom(r.sessions[k].dogs[dog].bag) {
      assert OnlyLeft(h.sessions[k], r.sessions[k]) && NoPhantoms(h.sessions[k]);
    }
  }

  lemma TickerKeepsClean(g: Game, limitMs: nat, delta: nat, hits: map<MapId, seq<Hit>>, afk: seq<nat>)
    requires GameInv(g) && AllClean(g) && Legal(g, limitMs, Ticker(delta, hits, afk))
    requires UncontestedTicks(g, delta, hits)
    ensures AllClean(After(g, limitMs, Ticker(delta, hits, afk)))
  {
    hide GameInv, AllClean, UncontestedTicks, TicksAreFine, AfterTicks, AfterRetireAll;
    TicksKeepInv(g, delta, hits);
    TicksCleanIff(g, delta, hits);
    RetiringKeepsClean(AfterTicks(g, delta, hits), limitMs, afk);
  }

  /** A session with clean bags next to the sessions that were clean already. */
  lemma PutCleanSession(g: Game, k: MapId, s: Session)
    requires AllClean(g) && NoPhantoms(s)
    ensures forall h: Game :: h.sessions == g.sessions[k := s] ==> AllClean(h)
  {
    hide NoPhantoms;
  }

  lemma NewLootKeepsClean(s: Session, loots: seq<Loot>)
    requires NoPhantoms(s)
    ensures NoPhantoms(AfterAddLoots(s, loots))
  {
    AddLootsKeepsDogs(s, loots);
  }

  /** The steps other than ticks put no empty slot in any bag. */
  lemma OthersKeepClean(g: Game, limitMs: nat, step: Step)
    requires Legal(g, limitMs, step) && !step.Ticker? && AllClean(g)
    ensures AllClean(After(g, limitMs, step))
  {
    match step {
      case Join(name, k, spawn, token, loots) =>
        if name !in g.nameToId {
          var s := AfterAddDog(SessionOf(g, k), NewDog(g.nextDog, name, spawn, g.maps[k].bagCapacity));
          assert NoPhantoms(s);
          hide NoPhantoms;
          NewLootKeepsClean(s, loots);
          PutCleanSession(g, k, AfterAddLoots(s, loots));
        }
      case Order(id, direction) =>
        var p := g.tokens.players[id];
        var s := AfterSteer(g.sessions[p.mapId], p.dogId, direction, g.maps[p.mapId].dogSpeed);
        assert NoPhantoms(s);
        PutCleanSession(g, p.mapId, s);
      case NewLoot(k, loots) =>
        NewLootKeepsClean(SessionOf(g, k), loots);
        PutCleanSession(g, k, AfterAddLoots(SessionOf(g, k), loots));
    }
  }

  /** As long as no tick of a run is contested, no bag has an empty slot, so that no office visit and no saving
      faults. */
  lemma {:induction false} UncontestedRunsStayClean(run: seq<Game>, limitMs: nat, steps: seq<Step>, i: nat)
    requires IsRun(run, limitMs, steps) && i < |run| && AllClean(run[0])
    requires forall j :: 0 <= j < i && steps[j].Ticker? ==> UncontestedTicks(run[j], steps[j].deltaMs, steps[j].hits)
    ensures AllClean(run[i])
  {
    hide GameInv, Legal, After, AllClean, UncontestedTicks;
    if i > 0 {
      UncontestedRunsStayClean(run, limitMs, steps, i - 1);
      RunsKeepInv(run, limitMs, steps, i - 1);
      match steps[i - 1] {
        case Ticker(delta, hits, afk) => TickerKeepsClean(run[i - 1], limitMs, delta, hits, afk);
        case _ => OthersKeepClean(run[i - 1], limitMs, steps[i - 1]);
      }
    }
  }
}
