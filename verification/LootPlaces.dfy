/**
  Every object in one place, over runs and over restarts: an id is on one map, in one slot of one bag, exchanged,
  or gone with one retired dog, and never in two of these, also after the game came back from its file.
 */
module LootPlaces {
  import opened Wrappers
  import opened RoadMap
  import opened Dogs
  import opened Sums
  import opened SessionModel
  import opened SessionLedger
  import opened Registry
  import opened GameModel
  import opened GameRuns
  import opened RunLedger
  import opened Serialization
  import opened RoundTrip

  /** How often the object is held by the session of a map. */
  function Held(g: Game, k: MapId, id: nat, n: nat): nat { Holdings(SessionOf(g, k), Is(id), n) }

  /** The object is not held twice, and not at all if its id is still to come. */
  ghost predicate HeldOnce(g: Game, id: nat, n: nat) {
    && (forall k :: Held(g, k, id, n) <= 1)
    && (forall j, k :: j != k ==> Held(g, j, id, n) + Held(g, k, id, n) <= 1)
    && (id >= g.nextLoot ==> forall k :: Held(g, k, id, n) == 0)
  }

  ghost predicate OnePlace(g: Game, n: nat) { forall id: nat :: HeldOnce(g, id, n) }

  /** How often a step brings the object to a map: once if the id is next from the counter. */
  function Gains(g: Game, step: Step, k: MapId, id: nat): nat {
    match step
    case Join(name, j, _, _, loots) =>
      if name !in g.nameToId && j == k && g.nextLoot <= id < g.nextLoot + |loots| then 1 else 0
    case NewLoot(j, loots) => if j == k && g.nextLoot <= id < g.nextLoot + |loots| then 1 else 0
    case _ => 0
  }

  lemma LootsGained(s: Session, t: Session, loots: seq<Loot>, first: nat, id: nat)
    requires FreshLoots(loots, first) && s.history.generated == t.history.generated
    ensures Appeared(AfterAddLoots(s, loots), Is(id)) ==
            Appeared(t, Is(id)) + if first <= id < first + |loots| then 1 else 0
  {
    LootsAppear(s, loots, first, id);
    SameGeneratedSameAppearance(s, t, id);
  }

  lemma StepGains(g: Game, limitMs: nat, step: Step, k: MapId, id: nat)
    requires GameInv(g) && Legal(g, limitMs, step)
    ensures Appeared(SessionOf(After(g, limitMs, step), k), Is(id)) ==
        Appeared(SessionOf(g, k), Is(id)) + Gains(g, step, k, id)
  {
    hide GameInv, TicksAreFine, AfterTicks, AfterRetireAll, AfterAddLoots, Appeared, Is;
    match step {
      case Join(name, j, spawn, token, loots) =>
        if name !in g.nameToId && j == k {
          var s := AfterAddDog(SessionOf(g, k), NewDog(g.nextDog, name, spawn, g.maps[k].bagCapacity));
          LootsGained(s, SessionOf(g, k), loots, g.nextLoot, id);
        }
      case Order(p, direction) =>
        SameGeneratedSameAppearance(SessionOf(After(g, limitMs, step), k), SessionOf(g, k), id);
      case NewLoot(j, loots) =>
        if j == k {
          LootsGained(SessionOf(g, k), SessionOf(g, k), loots, g.nextLoot, id);
        }
      case Ticker(delta, hits, afk) =>
        TickerGeneratesNothing(g, limitMs, delta, hits, afk);
        SameGeneratedSameAppearance(SessionOf(After(g, limitMs, step), k), SessionOf(g, k), id);
    }
  }

  lemma StepCounters(g: Game, limitMs: nat, step: Step)
    requires Legal(g, limitMs, step)
    ensures After(g, limitMs, step).nextLoot >= g.nextLoot
    ensures forall k, id: nat :: Gains(g, step, k, id) > 0 ==> g.nextLoot <= id < After(g, limitMs, step).nextLoot
    ensures forall j, k, id: nat :: j != k ==> Gains(g, step, j, id) + Gains(g, step, k, id) <= 1
    ensures forall k, id: nat :: k !in g.maps ==> Gains(g, step, k, id) == 0
    ensures forall k, id: nat :: Gains(g, step, k, id) <= 1
  {
    hide TicksAreFine, AfterTicks, AfterRetireAll, AfterAddLoots;
    if step.Ticker? {
      TickerCounters(g, limitMs, step.deltaMs, step.hits, step.afk);
    }
  }

  /** A step adds to what a session holds exactly what it brings there. */
  lemma StepHeld(g: Game, limitMs: nat, step: Step, k: MapId, id: nat, n: nat)
    requires GameInv(g) && Legal(g, limitMs, step)
    requires After(g, limitMs, step).nextDog <= n && After(g, limitMs, step).nextLoot <= n
    ensures Held(After(g, limitMs, step), k, id, n) == Held(g, k, id, n) + Gains(g, step, k, id)
  {
    StepCounters(g, limitMs, step);
    if k in g.maps {
      StepGains(g, limitMs, step, k, id);
      StepBooks(g, limitMs, step, k, FromTable(g.maps[k].lootValues), Is(id), n);
    } else {
      StepKeepsInv(g, limitMs, step);
      NoMapNoSession(g, k);
      NoMapNoSession(After(g, limitMs, step), k);
    }
  }

  lemma NoMapNoSession(g: Game, k: MapId)
    requires GameInv(g) && k !in g.maps
    ensures SessionOf(g, k) == EMPTY_SESSION
  {
  }

  /** What is held at most once stays so if only new ids come, each to one map. */
  lemma Spread(g: Game, h: Game, step: Step, id: nat, n: nat)
    requires HeldOnce(g, id, n) && h.nextLoot >= g.nextLoot
    requires forall k :: Held(h, k, id, n) == Held(g, k, id, n) + Gains(g, step, k, id)
    requires forall k :: Gains(g, step, k, id) > 0 ==> g.nextLoot <= id < h.nextLoot
    requires forall j, k :: j != k ==> Gains(g, step, j, id) + Gains(g, step, k, id) <= 1
    requires forall k :: Gains(g, step, k, id) <= 1
    ensures HeldOnce(h, id, n)
  {
    hide Held, Gains;
  }

  lemma StepKeepsHeldOnce(g: Game, limitMs: nat, step: Step, id: nat, n: nat)
    requires GameInv(g) && Legal(g, limitMs, step) && HeldOnce(g, id, n)
    requires After(g, limitMs, step).nextDog <= n && After(g, limitMs, step).nextLoot <= n
    ensures HeldOnce(After(g, limitMs, step), id, n)
  {
    var h := After(g, limitMs, step);
    hide GameInv, Legal, After, Held, Gains, HeldOnce;
    StepCounters(g, limitMs, step);
    forall k ensures Held(h, k, id, n) == Held(g, k, id, n) + Gains(g, step, k, id) {
      StepHeld(g, limitMs, step, k, id, n);
    }
    Spread(g, h, step, id, n);
  }

  lemma StepKeepsOnePlace(g: Game, limitMs: nat, step: Step, n: nat)
    requires GameInv(g) && Legal(g, limitMs, step) && OnePlace(g, n)
    requires After(g, limitMs, step).nextDog <= n && After(g, limitMs, step).nextLoot <= n
    ensures OnePlace(After(g, limitMs, step), n)
  {
    hide GameInv, Legal, After, HeldOnce;
    forall id: nat ensures HeldOnce(After(g, limitMs, step), id, n) {
      StepKeepsHeldOnce(g, limitMs, step, id, n);
    }
  }

  lemma NothingHeld(id: nat, n: nat)
    ensures Holdings(EMPTY_SESSION, Is(id), n) == 0
  {
    EmptyBooks(Is(id), n);
  }

  lemma NewGameOnePlace(maps: map<MapId, GameMap>, n: nat)
    ensures OnePlace(NewGame(maps), n)
  {
    forall id: nat ensures HeldOnce(NewGame(maps), id, n) {
      NothingHeld(id, n);
    }
  }

  /** Over any run, whatever state it starts from: what was held at most once stays so, and the counter's ids are
      used once. */
  lemma {:induction false} RunKeepsOnePlace(run: seq<Game>, limitMs: nat, steps: seq<Step>, i: nat, n: nat)
    requires IsRun(run, limitMs, steps) && i < |run| && OnePlace(run[0], n)
    requires run[i].nextDog <= n && run[i].nextLoot <= n
    ensures OnePlace(run[i], n)
  {
    hide GameInv, Legal, After, OnePlace;
    if i > 0 {
      RunsKeepInv(run, limitMs, steps, i - 1);
      assert run[i - 1 + 1] == After(run[i - 1], limitMs, steps[i - 1]);
      StepGrows(run[i - 1], limitMs, steps[i - 1]);
      RunKeepsOnePlace(run, limitMs, steps, i - 1, n);
      StepKeepsOnePlace(run[i - 1], limitMs, steps[i - 1], n);
    }
  }

  /** The counters never go back. */
  lemma StepGrows(g: Game, limitMs: nat, step: Step)
    requires Legal(g, limitMs, step)
    ensures After(g, limitMs, step).nextDog >= g.nextDog && After(g, limitMs, step).nextLoot >= g.nextLoot
  {
    hide TicksAreFine, AfterTicks, AfterRetireAll, AfterAddLoots;
    if step.Ticker? {
      TickerCounters(g, limitMs, step.deltaMs, step.hits, step.afk);
    }
  }

  // ---------------------------------------------------------------------------------------------
  // Restarts

  /** What a restored session holds is what the saved one held on the ground and in bags. */
  lemma RestoredHolds(s: Session, t: Session, id: nat, n: nat)
    requires t.lost == s.lost && t.dogs == RestedDogs(s) && NothingGone(t)
    ensures Holdings(t, Is(id), n) <= Holdings(s, Is(id), n)
  {
    assert forall dog :: At(t.dogs, InBag(Is(id)), dog) == At(s.dogs, InBag(Is(id)), dog);
    SumAgrees(s.dogs, t.dogs, InBag(Is(id)), n);
    SumEmpty(InBag(Is(id)), n);
  }

  lemma {:induction false} ObjectsAmong(bag: Bag, id: nat, next: nat)
    requires BagBelow(bag, next) && id >= next
    ensures SumSeq(Objects(bag), Is(id)) == 0
  {
    if bag != [] {
      var front := bag[..|bag| - 1];
      ObjectsAmong(front, id, next);
      match bag[|bag| - 1] {
        case Some(l) => SumSeqOne(Objects(front), l, Is(id));
        case None => assert Objects(front) + [] == Objects(front);
      }
    }
  }

  lemma {:induction false} SumOfZeros<T>(m: map<nat, T>, f: T -> nat, n: nat)
    requires forall k :: k in m ==> f(m[k]) == 0
    ensures Sum(m, f, n) == 0
  {
    if n > 0 {
      SumOfZeros(m, f, n - 1);
    }
  }

  /** No id from the counter on is held. */
  lemma NothingFromTheCounterOn(s: Session, nextDog: nat, nextLoot: nat, id: nat, n: nat)
    requires IdsBelow(s, nextDog, nextLoot) && id >= nextLoot && NothingGone(s)
    requires forall l :: l in s.lost ==> s.lost[l].id == l
    ensures Holdings(s, Is(id), n) == 0
  {
    forall dog | dog in s.dogs ensures InBag(Is(id))(s.dogs[dog]) == 0 {
      ObjectsAmong(s.dogs[dog].bag, id, nextLoot);
    }
    SumOfZeros(s.dogs, InBag(Is(id)), n);
    SumOfZeros(s.lost, Is(id), n);
    SumEmpty(InBag(Is(id)), n);
  }

  lemma RestoredHeld(g: Game, h: Game, k: MapId, id: nat, n: nat)
    requires GameInv(h) && Regained(h, g)
    ensures Held(h, k, id, n) <= Held(g, k, id, n)
    ensures id >= h.nextLoot ==> Held(h, k, id, n) == 0
  {
    if k in h.sessions {
      assert SessionInv(h.maps[k], h.sessions[k]) && IdsBelow(h.sessions[k], h.nextDog, h.nextLoot);
      RestoredHolds(g.sessions[k], h.sessions[k], id, n);
      if id >= h.nextLoot {
        hide SessionInv, GameInv, IdsBelow, Regained;
        LostUnderIds(h.maps[k], h.sessions[k]);
        NothingFromTheCounterOn(h.sessions[k], h.nextDog, h.nextLoot, id, n);
      }
    } else {
      NothingHeld(id, n);
    }
  }

  /** The game that comes back from the file holds no object twice, either. */
  lemma RestoringKeepsOnePlace(g: Game, h: Game, n: nat)
    requires GameInv(h) && Regained(h, g) && OnePlace(g, n)
    ensures OnePlace(h, n)
  {
    hide GameInv, Regained, Held;
    forall id: nat ensures HeldOnce(h, id, n) {
      assert HeldOnce(g, id, n);
      forall k ensures Held(h, k, id, n) <= Held(g, k, id, n) && (id >= h.nextLoot ==> Held(h, k, id, n) == 0) {
        RestoredHeld(g, h, k, id, n);
      }
    }
  }

  // ---------------------------------------------------------------------------------------------
  // The whole career of a server

  /** One run of the program, from its start to its stop. */
  datatype Life = Life(run: seq<Game>, steps: seq<Step>)

  /** The game h came back from a file that was saved for g. */
  ghost predicate ComesBack(g: Game, h: Game) {
    exists r: GameRepr, ids: seq<nat> ::
      IsSaveOf(r, g) && Enumerates(ids, r.tokens.players) && RestoreGame(NewGame(g.maps), r, ids) == Ok(h)
  }

  /** The start of a life comes back from a state of one of the lives before it. */
  ghost predicate StartsFromEarlier(lives: seq<Life>, j: nat)
    requires j < |lives| && lives[j].run != []
  {
    exists l: nat, at: nat :: l < j && at < |lives[l].run| && ComesBack(lives[l].run[at], lives[j].run[0])
  }

  /** Lives one after the other, the first from a new game, the others from files saved in earlier ones. */
  ghost predicate IsCareer(lives: seq<Life>, limitMs: nat) {
    && (forall j :: 0 <= j < |lives| ==> IsRun(lives[j].run, limitMs, lives[j].steps))
    && (lives != [] ==> lives[0].run[0] == NewGame(lives[0].run[0].maps))
    && (forall j: nat :: 0 < j < |lives| ==> StartsFromEarlier(lives, j))
  }

  ghost predicate CountersBelow(lives: seq<Life>, n: nat) {
    forall j, i :: 0 <= j < |lives| && 0 <= i < |lives[j].run| ==>
        lives[j].run[i].nextDog <= n && lives[j].run[i].nextLoot <= n
  }

  lemma ComingBackKeepsOnePlace(g: Game, h: Game, n: nat)
    requires GameInv(g) && OnePlace(g, n) && ComesBack(g, h)
    ensures OnePlace(h, n)
  {
    hide GameInv, OnePlace, IsSaveOf, RestoreGame, Regained;
    var r: GameRepr, ids: seq<nat> :|
      IsSaveOf(r, g) && Enumerates(ids, r.tokens.players) && RestoreGame(NewGame(g.maps), r, ids) == Ok(h);
    SaveThenRestore(g, r, ids);
    RestoringKeepsOnePlace(g, h, n);
  }

  /** In every state of every life of a server, over any number of saves and restarts, no object is in two places:
      ground, bag slots, exchanged objects and retired dogs of all maps taken together. */
  lemma {:induction false} NothingIsDoubled(lives: seq<Life>, limitMs: nat, j: nat, i: nat, n: nat)
    requires IsCareer(lives, limitMs) && CountersBelow(lives, n) && j < |lives| && i < |lives[j].run|
    ensures GameInv(lives[j].run[i]) && OnePlace(lives[j].run[i], n)
    decreases j
  {
    hide GameInv, OnePlace, IsRun, ComesBack;
    var life := lives[j];
    assert IsRun(life.run, limitMs, life.steps);
    if j == 0 {
      NewGameOnePlace(life.run[0].maps, n);
    } else {
      assert StartsFromEarlier(lives, j);
      var l: nat, at: nat :| l < j && at < |lives[l].run| && ComesBack(lives[l].run[at], life.run[0]);
      NothingIsDoubled(lives, limitMs, l, at, n);
      ComingBackKeepsOnePlace(lives[l].run[at], life.run[0], n);
    }
    RunsKeepInv(life.run, limitMs, life.steps, i);
    RunKeepsOnePlace(life.run, limitMs, life.steps, i, n);
  }
}
