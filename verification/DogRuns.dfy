/**
  The dogs in runs of the game: apart from bag and score a dog does what the ticks and the orders of its player
  make it do.  What holds of one dog over its deeds thereby holds of every dog over every run.
 */
module DogRuns {
  import opened Wrappers
  import opened Geometry
  import opened RoadMap
  import opened Dogs
  import opened Motion
  import opened CollisionDetector
  import opened SessionModel
  import opened SessionTick
  import opened Registry
  import opened GameModel
  import opened GameRuns

  /** What a step of the game is for one dog: a tick, an order if it comes from the dog's player, or nothing. */
  function DeedsOfStep(g: Game, step: Step, k: MapId, dog: nat): seq<Deed> {
    match step
    case Order(id, direction) =>
      if id in g.tokens.players && g.tokens.players[id].mapId == k && g.tokens.players[id].dogId == dog
      then [Deed.Order(direction)] else []
    case Ticker(delta, _, _) => [Tick(delta)]
    case _ => []
  }

  /** The deeds of a dog from state i to state j of a run. */
  function DeedsInRun(run: seq<Game>, steps: seq<Step>, k: MapId, dog: nat, i: nat, j: nat): seq<Deed>
    requires i <= j <= |steps| <= |run|
  {
    if i == j then []
    else DeedsInRun(run, steps, k, dog, i, j - 1) + DeedsOfStep(run[j - 1], steps[j - 1], k, dog)
  }

  /** The dog is in its session in every state from i to j. */
  ghost predicate Present(run: seq<Game>, k: MapId, dog: nat, i: nat, j: nat) {
    i <= j < |run| && forall l :: i <= l <= j ==> k in run[l].sessions && dog in run[l].sessions[k].dogs
  }

  function DogIn(g: Game, k: MapId, dog: nat): DogState
    requires k in g.sessions && dog in g.sessions[k].dogs
  {
    g.sessions[k].dogs[dog]
  }

  /** Bag and score make no difference to what a deed does to the rest. */
  lemma DeedIgnoresBag(m: GameMap, d: DogState, e: DogState, deed: Deed)
    requires SameButBagAndScore(d, e)
    ensures SameButBagAndScore(AfterDeed(m, d, deed), AfterDeed(m, e, deed))
  {
    hide Travel, Target;
  }

  lemma OneDeed(m: GameMap, d: DogState, deed: Deed)
    ensures AfterDeeds(m, d, [deed]) == AfterDeed(m, d, deed) && AfterDeeds(m, d, []) == d
  {
    assert [deed][..0] == [];
  }

  lemma {:induction false} DeedsOneMore(m: GameMap, d: DogState, deeds: seq<Deed>, deed: Deed)
    ensures AfterDeeds(m, d, deeds + [deed]) == AfterDeed(m, AfterDeeds(m, d, deeds), deed)
  {
    assert (deeds + [deed])[..|deeds|] == deeds;
  }

  lemma TicksAreTicks(g: Game, delta: nat, hits: map<MapId, seq<Hit>>, k: MapId, dog: nat)
    requires TicksAreFine(g, delta, hits) && k in g.sessions && dog in g.sessions[k].dogs
    ensures var t := AfterTicks(g, delta, hits);
            && k in t.sessions && dog in t.sessions[k].dogs
            && SameButBagAndScore(Advanced(g.maps[k].roads, DogIn(g, k, dog), delta), DogIn(t, k, dog))
  {
    hide Advanced, AreHits, Replay;
    TickIsAfterTick(g, delta, hits, k);
    TickAdvancesDogs(g.maps[k], g.sessions[k], delta, hits[k], dog);
  }

  /** A ticker callback advances the dogs that stay. */
  lemma TickerIsATick(g: Game, limitMs: nat, delta: nat, hits: map<MapId, seq<Hit>>, afk: seq<nat>, k: MapId, dog: nat)
    requires GameInv(g) && Legal(g, limitMs, Step.Ticker(delta, hits, afk))
    requires k in g.sessions && k in g.maps && dog in g.sessions[k].dogs
    requires var h := After(g, limitMs, Step.Ticker(delta, hits, afk)); k in h.sessions && dog in h.sessions[k].dogs
    ensures SameButBagAndScore(AfterDeed(g.maps[k], DogIn(g, k, dog), Tick(delta)),
                               DogIn(After(g, limitMs, Step.Ticker(delta, hits, afk)), k, dog))
  {
    hide TicksAreFine, GameInv, Advanced, AfterTicks;
    TicksKeepInv(g, delta, hits);
    TicksAreTicks(g, delta, hits, k, dog);
    var t := AfterTicks(g, delta, hits);
    AfkListMembers(t, limitMs, afk);
    RetireAllEffect(t, afk);
    assert OnlyLeft(t.sessions[k], AfterRetireAll(t, afk).sessions[k]);
  }

  /** The other steps do to a dog what its player orders, and nothing to the dogs of others. */
  lemma OthersAreOrders(g: Game, limitMs: nat, step: Step, k: MapId, dog: nat)
    requires Legal(g, limitMs, step) && !step.Ticker? && k in g.sessions && k in g.maps && dog in g.sessions[k].dogs
    requires IdsBelow(g.sessions[k], g.nextDog, g.nextLoot)
    ensures var h := After(g, limitMs, step);
            && k in h.sessions && dog in h.sessions[k].dogs
            && DogIn(h, k, dog) == AfterDeeds(g.maps[k], DogIn(g, k, dog), DeedsOfStep(g, step, k, dog))
  {
    var d := DogIn(g, k, dog);
    match step {
      case Join(name, j, spawn, token, loots) =>
        if name !in g.nameToId {
          AddLootsKeepsDogs(AfterAddDog(SessionOf(g, j), NewDog(g.nextDog, name, spawn, g.maps[j].bagCapacity)), loots);
        }
      case Order(id, direction) => OneDeed(g.maps[k], d, Deed.Order(direction));
      case NewLoot(j, loots) => AddLootsKeepsDogs(SessionOf(g, j), loots);
    }
  }

  lemma StepIsDeeds(g: Game, limitMs: nat, step: Step, k: MapId, dog: nat)
    requires GameInv(g) && Legal(g, limitMs, step)
    requires k in g.sessions && k in g.maps && dog in g.sessions[k].dogs
    requires var h := After(g, limitMs, step); k in h.sessions && dog in h.sessions[k].dogs
    ensures SameButBagAndScore(AfterDeeds(g.maps[k], DogIn(g, k, dog), DeedsOfStep(g, step, k, dog)),
                               DogIn(After(g, limitMs, step), k, dog))
  {
    assert IdsBelow(g.sessions[k], g.nextDog, g.nextLoot);
    hide GameInv, After, Legal, IdsBelow, AfterDeed;
    if step.Ticker? {
      OneDeed(g.maps[k], DogIn(g, k, dog), Tick(step.deltaMs));
      TickerIsATick(g, limitMs, step.deltaMs, step.hits, step.afk, k, dog);
    } else {
      OthersAreOrders(g, limitMs, step, k, dog);
    }
  }

  lemma SameChain(m: GameMap, d: DogState, e: DogState, f: DogState, deeds: seq<Deed>, more: seq<Deed>)
    requires SameButBagAndScore(AfterDeeds(m, d, deeds), e) && SameButBagAndScore(AfterDeeds(m, e, more), f)
    requires |more| <= 1
    ensures SameButBagAndScore(AfterDeeds(m, d, deeds + more), f)
  {
    hide AfterDeed;
    if more == [] {
      assert deeds + more == deeds;
    } else {
      assert more == [more[0]];
      OneDeed(m, e, more[0]);
      DeedsOneMore(m, d, deeds, more[0]);
      DeedIgnoresBag(m, AfterDeeds(m, d, deeds), e, more[0]);
    }
  }

  /** For as long as a dog is in the game it is, but for bag and score, what its deeds make of it. */
  lemma {:induction false} RunFollowsDeeds(run: seq<Game>, limitMs: nat, steps: seq<Step>, k: MapId, dog: nat, i: nat,
      j: nat)
    requires IsRun(run, limitMs, steps) && Present(run, k, dog, i, j) && k in run[0].maps
    ensures SameButBagAndScore(AfterDeeds(run[0].maps[k], DogIn(run[i], k, dog), DeedsInRun(run, steps, k, dog, i, j)),
                               DogIn(run[j], k, dog))
  {
    hide GameInv, Legal, After, AfterDeeds, DeedsOfStep;
    if i < j {
      RunFollowsDeeds(run, limitMs, steps, k, dog, i, j - 1);
      RunsKeepInv(run, limitMs, steps, j - 1);
      assert run[j - 1 + 1] == After(run[j - 1], limitMs, steps[j - 1]) && k in run[j].sessions &&
          dog in run[j].sessions[k].dogs;
      StepIsDeeds(run[j - 1], limitMs, steps[j - 1], k, dog);
      AtMostOneDeed(run[j - 1], steps[j - 1], k, dog);
      SameChain(run[0].maps[k], DogIn(run[i], k, dog), DogIn(run[j - 1], k, dog), DogIn(run[j], k, dog),
                DeedsInRun(run, steps, k, dog, i, j - 1), DeedsOfStep(run[j - 1], steps[j - 1], k, dog));
    } else {
      NoDeeds(run[0].maps[k], DogIn(run[i], k, dog));
    }
  }

  lemma NoDeeds(m: GameMap, d: DogState)
    ensures SameButBagAndScore(AfterDeeds(m, d, []), d)
  {
  }

  lemma AtMostOneDeed(g: Game, step: Step, k: MapId, dog: nat)
    ensures |DeedsOfStep(g, step, k, dog)| <= 1
  {
  }

  // ---------------------------------------------------------------------------------------------
  // Roads

  ghost predicate KeepsToRoad(m: GameMap, d: DogState, e: DogState) {
    if OnSomeRoad(m.roads, d.position) then OnSomeRoad(m.roads, e.position) else e.position == d.position
  }

  lemma DogIsSound(g: Game, k: MapId, dog: nat)
    requires GameInv(g) && k in g.sessions && dog in g.sessions[k].dogs
    ensures k in g.maps && DogInv(g.maps[k], DogIn(g, k, dog)) && g.maps[k].Valid()
  {
    assert SessionInv(g.maps[k], g.sessions[k]);
  }

  /** For as long as a dog is in the game it stays on the roads, if it was on one, or on its spot, if not. */
  lemma RunKeepsToRoad(run: seq<Game>, limitMs: nat, steps: seq<Step>, k: MapId, dog: nat, i: nat, j: nat)
    requires IsRun(run, limitMs, steps) && Present(run, k, dog, i, j) && k in run[0].maps
    ensures KeepsToRoad(run[0].maps[k], DogIn(run[i], k, dog), DogIn(run[j], k, dog))
  {
    hide GameInv, Legal, After, AfterDeeds;
    RunsKeepInv(run, limitMs, steps, i);
    DogIsSound(run[i], k, dog);
    RunFollowsDeeds(run, limitMs, steps, k, dog, i, j);
    LifeOnTheRoad(run[0].maps[k], DogIn(run[i], k, dog), DeedsInRun(run, steps, k, dog, i, j));
  }

  // ---------------------------------------------------------------------------------------------
  // Clocks

  /** The life clock has run for all the ticks from state i to state j. */
  lemma LifeClockInRun(run: seq<Game>, limitMs: nat, steps: seq<Step>, k: MapId, dog: nat, i: nat, j: nat)
    requires IsRun(run, limitMs, steps) && Present(run, k, dog, i, j) && k in run[0].maps
    ensures DogIn(run[j], k, dog).liveTime == DogIn(run[i], k, dog).liveTime + TickedMs(steps[i..j])
  {
    hide AfterDeeds, DeedsInRun, GameInv, Legal, After;
    RunFollowsDeeds(run, limitMs, steps, k, dog, i, j);
    LifeClock(run[0].maps[k], DogIn(run[i], k, dog), DeedsInRun(run, steps, k, dog, i, j));
    ElapsedIsTicked(run, steps, k, dog, i, j);
  }

  /** The time of the ticks among some steps. */
  function TickedMs(steps: seq<Step>): nat {
    if steps == [] then 0
    else TickedMs(steps[..|steps| - 1]) + if steps[|steps| - 1].Ticker? then steps[|steps| - 1].deltaMs else 0
  }

  lemma {:induction false} LifeClock(m: GameMap, d: DogState, deeds: seq<Deed>)
    ensures AfterDeeds(m, d, deeds).liveTime == d.liveTime + ElapsedMs(deeds)
  {
    hide Travel, Target;
    if deeds != [] {
      LifeClock(m, d, deeds[..|deeds| - 1]);
    }
  }

  lemma {:induction false} ElapsedIsTicked(run: seq<Game>, steps: seq<Step>, k: MapId, dog: nat, i: nat, j: nat)
    requires i <= j <= |steps| <= |run|
    ensures ElapsedMs(DeedsInRun(run, steps, k, dog, i, j)) == TickedMs(steps[i..j])
  {
    if i == j {
      assert steps[i..j] == [];
    } else {
      hide ElapsedMs, TickedMs, DeedsOfStep;
      ElapsedIsTicked(run, steps, k, dog, i, j - 1);
      StepElapsed(run[j - 1], steps[j - 1], k, dog);
      AtMostOneDeed(run[j - 1], steps[j - 1], k, dog);
      ElapsedOneMore(DeedsInRun(run, steps, k, dog, i, j - 1), DeedsOfStep(run[j - 1], steps[j - 1], k, dog));
      TickedOneMore(steps, i, j);
    }
  }

  lemma StepElapsed(g: Game, step: Step, k: MapId, dog: nat)
    ensures ElapsedMs(DeedsOfStep(g, step, k, dog)) == if step.Ticker? then step.deltaMs else 0
  {
    var deeds := DeedsOfStep(g, step, k, dog);
    assert deeds != [] ==> deeds[..|deeds| - 1] == [];
  }

  lemma ElapsedOneMore(before: seq<Deed>, now: seq<Deed>)
    requires |now| <= 1
    ensures ElapsedMs(before + now) == ElapsedMs(before) + ElapsedMs(now)
  {
    if now == [] {
      assert before + now == before;
    } else {
      assert (before + now)[..|before|] == before && now[..0] == [];
    }
  }

  lemma TickedOneMore(steps: seq<Step>, i: nat, j: nat)
    requires i < j <= |steps|
    ensures TickedMs(steps[i..j]) ==
        TickedMs(steps[i..j - 1]) + if steps[j - 1].Ticker? then steps[j - 1].deltaMs else 0
  {
    assert steps[i..j][..j - i - 1] == steps[i..j - 1];
  }

  /** The idle clock of a dog that started with both clocks at zero, such as a new or a restored one, is the time
      since its last restart: the last order of its player, or the last tick that ended in motion. */
  lemma ClocksInRun(run: seq<Game>, limitMs: nat, steps: seq<Step>, k: MapId, dog: nat, i: nat, j: nat)
    requires IsRun(run, limitMs, steps) && Present(run, k, dog, i, j) && k in run[0].maps
    requires DogIn(run[i], k, dog).afkTime == 0 && DogIn(run[i], k, dog).liveTime == 0
    ensures var m, d, e, deeds :=
        run[0].maps[k], DogIn(run[i], k, dog), DogIn(run[j], k, dog), DeedsInRun(run, steps, k, dog, i, j);
            && e.liveTime == TickedMs(steps[i..j])
            && exists l: nat :: IdleSince(m, d, deeds, l) && e.afkTime == ElapsedMs(deeds[l..])
  {
    hide AfterDeeds, DeedsInRun, GameInv, Legal, After, IdleSince;
    LifeClockInRun(run, limitMs, steps, k, dog, i, j);
    RunFollowsDeeds(run, limitMs, steps, k, dog, i, j);
    ClocksMeasureTime(run[0].maps[k], DogIn(run[i], k, dog), DeedsInRun(run, steps, k, dog, i, j));
  }

  /** A dog comes into the game by a join, at the place drawn for it, with its player's name and the room of the map's
      bags, facing up and standing still, with nothing in its bag, no score, both clocks at zero, and a gathering
      segment of width 0.3 at the origin. */
  lemma DogsAreBornYoung(g: Game, limitMs: nat, step: Step, k: MapId, dog: nat)
    requires GameInv(g) && Legal(g, limitMs, step) && dog !in SessionOf(g, k).dogs
    requires var h := After(g, limitMs, step); k in h.sessions && dog in h.sessions[k].dogs
    ensures step.Join? && step.mapId == k && k in g.maps
    ensures dog == g.nextDog && After(g, limitMs, step).nextDog == g.nextDog + 1
    ensures var d := DogIn(After(g, limitMs, step), k, dog);
            && d.id == dog && d.name == step.name && d.position == step.spawn && d.bagCapacity == g.maps[k].bagCapacity
            && d.speed == Vec(0.0, 0.0) && d.direction == "U" && d.bag == [] && d.score == 0
            && d.afkTime == 0 && d.liveTime == 0 && d.gatherer == Gatherer(Vec(0.0, 0.0), Vec(0.0, 0.0), 0.3)
  {
    hide GameInv, TicksAreFine, AfterTicks, AfterRetireAll;
    match step {
      case Join(name, j, spawn, token, loots) =>
        AddLootsKeepsDogs(AfterAddDog(SessionOf(g, j), NewDog(g.nextDog, name, spawn, g.maps[j].bagCapacity)), loots);
      case Order(id, direction) =>
      case NewLoot(j, loots) => AddLootsKeepsDogs(SessionOf(g, j), loots);
      case Ticker(delta, hits, afk) => TickerBringsNobody(g, limitMs, delta, hits, afk, k);
    }
  }

  lemma TickerBringsNobody(g: Game, limitMs: nat, delta: nat, hits: map<MapId, seq<Hit>>, afk: seq<nat>, k: MapId)
    requires GameInv(g) && Legal(g, limitMs, Step.Ticker(delta, hits, afk))
    ensures var h := After(g, limitMs, Step.Ticker(delta, hits, afk));
            SessionOf(h, k).dogs.Keys <= SessionOf(g, k).dogs.Keys
  {
    hide TicksAreFine, GameInv, AfterTicks;
    TicksKeepInv(g, delta, hits);
    var t := AfterTicks(g, delta, hits);
    AfkListMembers(t, limitMs, afk);
    RetireAllEffect(t, afk);
    TicksBringNobody(g, delta, hits);
    if k in g.sessions {
      assert OnlyLeft(t.sessions[k], AfterRetireAll(t, afk).sessions[k]);
    }
  }

  lemma TicksBringNobody(g: Game, delta: nat, hits: map<MapId, seq<Hit>>)
    requires TicksAreFine(g, delta, hits)
    ensures var t := AfterTicks(g, delta, hits);
            t.sessions.Keys == g.sessions.Keys
            && forall k :: k in g.sessions ==> t.sessions[k].dogs.Keys == g.sessions[k].dogs.Keys
  {
    hide Advanced, AreHits;
  }

  // ---------------------------------------------------------------------------------------------
  // Ways

  /** What a deed that leaves the speed of a dog on a road as it is does to its place. */
  lemma SteadyDeeds(m: GameMap, d: DogState, e: DogState, deeds: seq<Deed>)
    requires DistinctIds(m.roads) && AxisAligned(d.speed) && OnSomeRoad(m.roads, d.position)
    requires |deeds| <= 1 && SameButBagAndScore(AfterDeeds(m, d, deeds), e) && e.speed == d.speed
    ensures OnSomeRoad(m.roads, e.position) && e.position == Target(d.position, d.speed, ElapsedMs(deeds))
  {
    hide Target, Advanced, OnSomeRoad;
    StandingStill(d.position, d.speed);
    if deeds != [] {
      assert deeds == [deeds[0]] && deeds[..0] == [];
      OneDeed(m, d, deeds[0]);
      if deeds[0].Tick? {
        SteadyTick(m.roads, d, deeds[0].deltaMs);
      }
    }
  }

  lemma SteadyStep(g: Game, limitMs: nat, step: Step, k: MapId, dog: nat)
    requires GameInv(g) && Legal(g, limitMs, step)
    requires k in g.sessions && k in g.maps && dog in g.sessions[k].dogs
    requires var h := After(g, limitMs, step); k in h.sessions && dog in h.sessions[k].dogs
    requires DogIn(After(g, limitMs, step), k, dog).speed == DogIn(g, k, dog).speed
    requires OnSomeRoad(g.maps[k].roads, DogIn(g, k, dog).position)
    ensures var d, e := DogIn(g, k, dog), DogIn(After(g, limitMs, step), k, dog);
            && OnSomeRoad(g.maps[k].roads, e.position)
            && e.position == Target(d.position, d.speed, if step.Ticker? then step.deltaMs else 0)
  {
    hide GameInv, After, Legal, Target, OnSomeRoad, AfterDeeds, DeedsOfStep, ElapsedMs, SameButBagAndScore;
    var d, e, deeds := DogIn(g, k, dog), DogIn(After(g, limitMs, step), k, dog), DeedsOfStep(g, step, k, dog);
    StepIsDeeds(g, limitMs, step, k, dog);
    DogIsSound(g, k, dog);
    AtMostOneDeed(g, step, k, dog);
    StepElapsed(g, step, k, dog);
    SteadyDeeds(g.maps[k], d, e, deeds);
  }

  lemma StandingStill(p: Vec, v: Vec)
    ensures Target(p, v, 0) == p
  {
  }

  ghost predicate KeepsSpeed(run: seq<Game>, k: MapId, dog: nat, i: nat, j: nat)
    requires Present(run, k, dog, i, j)
  {
    forall l :: i <= l <= j ==> DogIn(run[l], k, dog).speed == DogIn(run[i], k, dog).speed
  }

  lemma OneStepOfRun(run: seq<Game>, limitMs: nat, steps: seq<Step>, k: MapId, dog: nat, i: nat, j: nat)
    requires IsRun(run, limitMs, steps) && Present(run, k, dog, i, j) && i < j && KeepsSpeed(run, k, dog, i, j)
    ensures Present(run, k, dog, i, j - 1) && KeepsSpeed(run, k, dog, i, j - 1)
    ensures Legal(run[j - 1], limitMs, steps[j - 1]) && run[j] == After(run[j - 1], limitMs, steps[j - 1])
    ensures DogIn(run[j], k, dog).speed == DogIn(run[j - 1], k, dog).speed == DogIn(run[i], k, dog).speed
  {
    hide GameInv, Legal, After;
    assert run[j - 1 + 1] == After(run[j - 1], limitMs, steps[j - 1]);
  }

  lemma {:induction false} SteadyRun(run: seq<Game>, limitMs: nat, steps: seq<Step>, k: MapId, dog: nat, i: nat, j: nat)
    requires IsRun(run, limitMs, steps) && Present(run, k, dog, i, j) && k in run[0].maps
    requires OnSomeRoad(run[0].maps[k].roads, DogIn(run[i], k, dog).position) && KeepsSpeed(run, k, dog, i, j)
    ensures OnSomeRoad(run[0].maps[k].roads, DogIn(run[j], k, dog).position)
    ensures DogIn(run[j], k, dog).position ==
            Target(DogIn(run[i], k, dog).position, DogIn(run[i], k, dog).speed, TickedMs(steps[i..j]))
  {
    hide GameInv, Legal, After, Target, OnSomeRoad, KeepsSpeed, TickedMs;
    var p, v := DogIn(run[i], k, dog).position, DogIn(run[i], k, dog).speed;
    if i == j {
      assert steps[i..j] == [];
      NothingTicked();
      StandingStill(p, v);
    } else {
      OneStepOfRun(run, limitMs, steps, k, dog, i, j);
      SteadyRun(run, limitMs, steps, k, dog, i, j - 1);
      RunsKeepInv(run, limitMs, steps, j - 1);
      SteadyStep(run[j - 1], limitMs, steps[j - 1], k, dog);
      TickedOneMore(steps, i, j);
      AimsAdd(p, v, TickedMs(steps[i..j - 1]), if steps[j - 1].Ticker? then steps[j - 1].deltaMs else 0);
    }
  }

  lemma NothingTicked()
    ensures TickedMs([]) == 0
  {
  }

  /** As long as a dog on a road keeps its speed it goes speed times ticked time. */
  lemma SteadyDogs(run: seq<Game>, limitMs: nat, steps: seq<Step>, k: MapId, dog: nat, i: nat, j: nat)
    requires IsRun(run, limitMs, steps) && Present(run, k, dog, i, j) && k in run[0].maps
    requires OnSomeRoad(run[0].maps[k].roads, DogIn(run[i], k, dog).position)
    requires forall l :: i <= l <= j ==> DogIn(run[l], k, dog).speed == DogIn(run[i], k, dog).speed
    ensures var p, v, ms := DogIn(run[i], k, dog).position, DogIn(run[i], k, dog).speed, TickedMs(steps[i..j]);
            DogIn(run[j], k, dog).position == Vec(p.x + v.x * (ms as real) / 1000.0, p.y + v.y * (ms as real) / 1000.0)
  {
    hide GameInv, Legal, After, IsRun, OnSomeRoad;
    SteadyRun(run, limitMs, steps, k, dog, i, j);
  }

  // ---------------------------------------------------------------------------------------------
  // What a dog gathers

  /** After a tick the gathering segment ends where the dog is, and orders do not change that. */
  lemma {:induction false} SegmentEndsAtDog(m: GameMap, d: DogState, deeds: seq<Deed>, l: nat)
    requires l < |deeds| && deeds[l].Tick?
    ensures AfterDeeds(m, d, deeds).gatherer.endPos == AfterDeeds(m, d, deeds).position
    decreases |deeds|
  {
    hide Travel, Target;
    if l < |deeds| - 1 {
      SegmentEndsAtDog(m, d, deeds[..|deeds| - 1], l);
    }
  }

  lemma {:induction false} TickIsADeed(run: seq<Game>, steps: seq<Step>, k: MapId, dog: nat, i: nat, j: nat, l: nat)
    returns (at: nat)
    requires i <= l < j <= |steps| <= |run| && steps[l].Ticker?
    ensures at < |DeedsInRun(run, steps, k, dog, i, j)| && DeedsInRun(run, steps, k, dog, i, j)[at].Tick?
  {
    if l == j - 1 {
      at := |DeedsInRun(run, steps, k, dog, i, j - 1)|;
    } else {
      at := TickIsADeed(run, steps, k, dog, i, j - 1, l);
    }
  }

  /** A dog that has lived through a tick of the run has its gathering segment end where it is. */
  lemma SegmentFollowsDog(run: seq<Game>, limitMs: nat, steps: seq<Step>, k: MapId, dog: nat, i: nat, j: nat, l: nat)
    requires IsRun(run, limitMs, steps) && Present(run, k, dog, i, j) && k in run[0].maps
    requires i <= l < j && steps[l].Ticker?
    ensures DogIn(run[j], k, dog).gatherer.endPos == DogIn(run[j], k, dog).position
  {
    hide AfterDeeds, DeedsInRun, GameInv, Legal, After;
    RunFollowsDeeds(run, limitMs, steps, k, dog, i, j);
    var at := TickIsADeed(run, steps, k, dog, i, j, l);
    SegmentEndsAtDog(run[0].maps[k], DogIn(run[i], k, dog), DeedsInRun(run, steps, k, dog, i, j), at);
  }

  /** The object lies within reach of some point of the way from a to b. */
  ghost predicate WithinReach(a: Vec, b: Vec, p: Vec) {
    exists t :: 0.0 <= t <= 1.0 && SqDist(Along(a, b, t), p) <= DOG_WIDTH * DOG_WIDTH
  }

  /** What a dog hits in a tick lies within reach of its way, if its segment ended where it stood. */
  lemma HitsAreOnTheWay(m: GameMap, s: Session, delta: nat, hits: seq<Hit>, dog: nat, loot: nat)
    requires SessionInv(m, s) && m.Valid() && AreHits(m, Moved(m, s, delta), hits) && LootHit(dog, loot) in hits
    requires dog in s.dogs && s.dogs[dog].gatherer.endPos == s.dogs[dog].position
    ensures loot in s.lost
    ensures WithinReach(s.dogs[dog].position, Advanced(m.roads, s.dogs[dog], delta).position, s.lost[loot].position)
  {
    var moved := Moved(m, s, delta);
    MovedKeepsInv(m, s, delta);
    assert moved.dogs[dog].gatherer ==
        Gatherer(s.dogs[dog].position, moved.dogs[dog].position, moved.dogs[dog].gatherer.width);
    hide SessionInv, AreHits, Advanced, SqDist, Along;
    CollectedWithinReach(m, moved, hits, dog, loot);
  }

  /** From its second tick in a run on, whatever a dog hits lies within its width of the way it went in that tick. */
  lemma GatheredOnTheWay(run: seq<Game>, limitMs: nat, steps: seq<Step>, k: MapId, dog: nat, i: nat, j: nat, l: nat,
      loot: nat)
    requires IsRun(run, limitMs, steps) && Present(run, k, dog, i, j) && k in run[0].maps
    requires i <= l < j < |steps| && steps[l].Ticker? && steps[j].Ticker?
    requires k in steps[j].hits && LootHit(dog, loot) in steps[j].hits[k]
    ensures var m, s, d := run[0].maps[k], run[j].sessions[k], DogIn(run[j], k, dog);
            loot in s.lost
            && WithinReach(d.position, Advanced(m.roads, d, steps[j].deltaMs).position, s.lost[loot].position)
  {
    hide GameInv, After, WithinReach, Advanced;
    SegmentFollowsDog(run, limitMs, steps, k, dog, i, j, l);
    RunsKeepInv(run, limitMs, steps, j);
    DogIsSound(run[j], k, dog);
    SessionIsSound(run[j], k);
    assert Legal(run[j], limitMs, steps[j]);
    hide Legal;
    HitsAreOnTheWay(run[0].maps[k], run[j].sessions[k], steps[j].deltaMs, steps[j].hits[k], dog, loot);
  }

  lemma SessionIsSound(g: Game, k: MapId)
    requires GameInv(g) && k in g.sessions
    ensures k in g.maps && SessionInv(g.maps[k], g.sessions[k])
  {
  }
}
