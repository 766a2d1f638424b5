/**
  The ledger of value over restarts: along the lives that lead to a state, each started from a file saved in the
  one before, all value that appeared is on the map, in bags or in scores, or left with a retired dog.
 */
module CareerLedger {
  import opened Wrappers
  import opened RoadMap
  import opened Dogs
  import opened Sums
  import opened SessionModel
  import opened SessionLedger
  import opened Registry
  import opened GameModel
  import opened GameRuns
  import opened RunLedger
  import opened Serialization
  import opened RoundTrip
  import opened LootPlaces

  /** The value on the ground, in live bags and in live scores. */
  function Wealth(s: Session, price: Weight, n: nat): nat {
    Sum(s.lost, price, n) + Sum(s.dogs, InBag(price), n) + Sum(s.dogs, Score(), n)
  }

  /** The scores and bag values of the retired. */
  function Gone(s: Session, price: Weight, n: nat): nat {
    Sum(s.history.retired, Score(), n) + Sum(s.history.retired, InBag(price), n)
  }

  lemma BooksGiveWealth(price: Weight, s: Session, t: Session, n: nat)
    requires BooksBalance(price, s, t, price, n)
    ensures Wealth(t, price, n) + Gone(t, price, n) + Appeared(s, price) ==
            Wealth(s, price, n) + Gone(s, price, n) + Appeared(t, price)
  {
  }

  lemma NobodyGone(s: Session, price: Weight, n: nat)
    requires NothingGone(s)
    ensures Gone(s, price, n) == 0
  {
    SumEmpty(InBag(price), n);
    SumEmpty(Score(), n);
  }

  /** Between the start of a run at which nobody is gone and any later state. */
  lemma RunWealth(run: seq<Game>, limitMs: nat, steps: seq<Step>, i: nat, k: MapId, price: Weight, n: nat)
    requires IsRun(run, limitMs, steps) && i < |run| && k in run[0].maps && NothingGone(SessionOf(run[0], k))
    requires Prices(price, run[0].maps[k].lootValues) && run[i].nextDog <= n && run[i].nextLoot <= n
    ensures var s, t := SessionOf(run[0], k), SessionOf(run[i], k);
            Wealth(t, price, n) + Gone(t, price, n) == Wealth(s, price, n) + Appeared(t, price) - Appeared(s, price)
  {
    hide IsRun, BooksBalance, NothingGone, Wealth, Gone, Prices, SessionOf;
    RunBooks(run, limitMs, steps, i, k, price, price, n);
    BooksGiveWealth(price, SessionOf(run[0], k), SessionOf(run[i], k), n);
    NobodyGone(SessionOf(run[0], k), price, n);
  }

  /** Restoring keeps the wealth of every map. */
  lemma RestoredWealth(g: Game, h: Game, k: MapId, price: Weight, n: nat)
    requires Regained(h, g)
    ensures Wealth(SessionOf(h, k), price, n) == Wealth(SessionOf(g, k), price, n)
    ensures NothingGone(SessionOf(h, k))
  {
    if k in h.sessions {
      var s, t := g.sessions[k], h.sessions[k];
      assert forall dog :: At(t.dogs, InBag(price), dog) == At(s.dogs, InBag(price), dog);
      SumAgrees(s.dogs, t.dogs, InBag(price), n);
      assert forall dog :: At(t.dogs, Score(), dog) == At(s.dogs, Score(), dog);
      SumAgrees(s.dogs, t.dogs, Score(), n);
    }
  }

  // ---------------------------------------------------------------------------------------------
  // Lineages

  /** A life up to the state its successor was saved from, or the state one asks about. */
  datatype Stretch = Stretch(life: Life, end: nat) {
    ghost predicate Valid(limitMs: nat) { IsRun(life.run, limitMs, life.steps) && end < |life.run| }

    function First(): Game
      requires life.run != []
    {
      life.run[0]
    }

    function Last(): Game
      requires end < |life.run|
    {
      life.run[end]
    }
  }

  /** One stretch after the other, the first from a new game, each other from a file saved at the end of the one
      before. */
  ghost predicate IsLineage(line: seq<Stretch>, limitMs: nat) {
    && line != []
    && (forall j :: 0 <= j < |line| ==> line[j].Valid(limitMs))
    && line[0].First() == NewGame(line[0].First().maps)
    && (forall j :: 0 < j < |line| ==> ComesBack(line[j - 1].Last(), line[j].First()))
  }

  /** The value that appeared on a map in one stretch. */
  function AppearedIn(st: Stretch, k: MapId, price: Weight): int
    requires st.end < |st.life.run|
  {
    Appeared(SessionOf(st.Last(), k), price) - Appeared(SessionOf(st.First(), k), price)
  }

  function AllAppeared(line: seq<Stretch>, k: MapId, price: Weight): int
    requires forall j :: 0 <= j < |line| ==> line[j].end < |line[j].life.run|
  {
    if line == [] then 0 else AllAppeared(line[..|line| - 1], k, price) + AppearedIn(line[|line| - 1], k, price)
  }

  function AllGone(line: seq<Stretch>, k: MapId, price: Weight, n: nat): int
    requires forall j :: 0 <= j < |line| ==> line[j].end < |line[j].life.run|
  {
    if line == [] then 0
    else AllGone(line[..|line| - 1], k, price, n) + Gone(SessionOf(line[|line| - 1].Last(), k), price, n)
  }

  ghost predicate IdsUpTo(line: seq<Stretch>, n: nat)
    requires forall j :: 0 <= j < |line| ==> line[j].end < |line[j].life.run|
  {
    forall j :: 0 <= j < |line| ==> line[j].Last().nextDog <= n && line[j].Last().nextLoot <= n
  }

  lemma ComingBack(g: Game, h: Game)
    requires GameInv(g) && ComesBack(g, h)
    ensures Regained(h, g)
  {
    hide GameInv, IsSaveOf, RestoreGame, Regained;
    var r: GameRepr, ids: seq<nat> :|
      IsSaveOf(r, g) && Enumerates(ids, r.tokens.players) && RestoreGame(NewGame(g.maps), r, ids) == Ok(h);
    SaveThenRestore(g, r, ids);
  }

  lemma LineageFront(line: seq<Stretch>, limitMs: nat)
    requires IsLineage(line, limitMs) && |line| > 1
    ensures IsLineage(line[..|line| - 1], limitMs)
    ensures ComesBack(line[|line| - 2].Last(), line[|line| - 1].First())
  {
    hide IsRun, ComesBack;
    var j := |line| - 1;
    assert ComesBack(line[j - 1].Last(), line[j].First());
  }

  lemma StretchWealth(st: Stretch, limitMs: nat, k: MapId, price: Weight, n: nat)
    requires st.Valid(limitMs) && k in st.First().maps && NothingGone(SessionOf(st.First(), k))
    requires Prices(price, st.First().maps[k].lootValues) && st.Last().nextDog <= n && st.Last().nextLoot <= n
    ensures Wealth(SessionOf(st.Last(), k), price, n) + Gone(SessionOf(st.Last(), k), price, n) ==
            Wealth(SessionOf(st.First(), k), price, n) + AppearedIn(st, k, price)
    ensures GameInv(st.Last()) && st.Last().maps == st.First().maps
  {
    hide GameInv, IsRun, NothingGone, Wealth, Gone, Prices, SessionOf;
    RunWealth(st.life.run, limitMs, st.life.steps, st.end, k, price, n);
    RunsKeepInv(st.life.run, limitMs, st.life.steps, st.end);
  }

  lemma NewGameWealth(maps: map<MapId, GameMap>, k: MapId, price: Weight, n: nat)
    ensures Wealth(SessionOf(NewGame(maps), k), price, n) == 0 && NothingGone(SessionOf(NewGame(maps), k))
  {
    SumEmpty<Loot>(price, n);
    SumEmpty<DogState>(InBag(price), n);
    SumEmpty<DogState>(Score(), n);
  }

  /** Over any number of saves and restarts: the value of all loot that appeared on a map along the lineage is the
      value on the ground, in live bags and in live scores at its end, and what retired dogs took with them. */
  lemma {:induction false} LineageLedger(line: seq<Stretch>, limitMs: nat, k: MapId, price: Weight, n: nat)
    requires IsLineage(line, limitMs) && k in line[0].First().maps && IdsUpTo(line, n)
    requires var values := line[0].First().maps[k].lootValues;
             forall l: Loot :: l.lootType < |values| ==> price(l) == values[l.lootType]
    ensures var last := line[|line| - 1].Last();
            && last.maps == line[0].First().maps && GameInv(last)
            && AllAppeared(line, k, price) == Wealth(SessionOf(last, k), price, n) + AllGone(line, k, price, n)
    decreases |line|
  {
    hide GameInv, ComesBack, NothingGone, Wealth, Gone, SessionOf, Regained, AppearedIn, IsRun;
    var st, maps := line[|line| - 1], line[0].First().maps;
    assert Prices(price, maps[k].lootValues);
    assert st.Valid(limitMs);
    if |line| == 1 {
      NewGameWealth(maps, k, price, n);
      assert AllAppeared(line[..0], k, price) == 0 && AllGone(line[..0], k, price, n) == 0;
    } else {
      var front := line[..|line| - 1];
      LineageFront(line, limitMs);
      LineageLedger(front, limitMs, k, price, n);
      ComingBack(front[|front| - 1].Last(), st.First());
      RestoredWealth(front[|front| - 1].Last(), st.First(), k, price, n);
      SameMaps(front[|front| - 1].Last(), st.First());
    }
    StretchWealth(st, limitMs, k, price, n);
  }

  lemma SameMaps(g: Game, h: Game)
    requires Regained(h, g)
    ensures h.maps == g.maps
  {
  }

  // ---------------------------------------------------------------------------------------------
  // Every state of a career has a lineage

  lemma LineageOneMore(line: seq<Stretch>, limitMs: nat, st: Stretch)
    requires IsLineage(line, limitMs) && st.Valid(limitMs) && ComesBack(line[|line| - 1].Last(), st.First())
    ensures IsLineage(line + [st], limitMs)
  {
    hide IsRun, ComesBack, GameInv;
    var more := line + [st];
    forall j | 0 <= j < |more| ensures more[j].Valid(limitMs) {
      assert j < |line| ==> line[j].Valid(limitMs);
    }
    forall j | 0 < j < |more| ensures ComesBack(more[j - 1].Last(), more[j].First()) {
      if j < |line| {
        assert ComesBack(line[j - 1].Last(), line[j].First());
      }
    }
  }

  /** The stretches are from the career. */
  ghost predicate FromCareer(line: seq<Stretch>, lives: seq<Life>) {
    forall j :: 0 <= j < |line| ==> line[j].life in lives
  }

  lemma {:induction false} LineageExists(lives: seq<Life>, limitMs: nat, j: nat, i: nat) returns (line: seq<Stretch>)
    requires IsCareer(lives, limitMs) && j < |lives| && i < |lives[j].run|
    ensures IsLineage(line, limitMs) && FromCareer(line, lives) && line[|line| - 1] == Stretch(lives[j], i)
    decreases j
  {
    hide IsRun, ComesBack, GameInv;
    var st := Stretch(lives[j], i);
    assert IsRun(lives[j].run, limitMs, lives[j].steps);
    if j == 0 {
      line := [st];
    } else {
      assert StartsFromEarlier(lives, j);
      var l: nat, at: nat :| l < j && at < |lives[l].run| && ComesBack(lives[l].run[at], lives[j].run[0]);
      line := LineageExists(lives, limitMs, l, at);
      LineageOneMore(line, limitMs, st);
      line := line + [st];
    }
  }

  /** In every state of every life of a server the ledger is even: along the lives that led there, what appeared on
      a map is what is there, in bags and in scores, and what has retired. */
  lemma CareerIsEven(lives: seq<Life>, limitMs: nat, j: nat, i: nat, k: MapId, price: Weight, n: nat)
    returns (line: seq<Stretch>)
    requires IsCareer(lives, limitMs) && CountersBelow(lives, n) && j < |lives| && i < |lives[j].run|
    requires k in lives[j].run[i].maps
    requires var values := lives[j].run[i].maps[k].lootValues;
             forall l: Loot :: l.lootType < |values| ==> price(l) == values[l.lootType]
    ensures IsLineage(line, limitMs) && FromCareer(line, lives) && line[|line| - 1] == Stretch(lives[j], i)
    ensures var now := lives[j].run[i];
            AllAppeared(line, k, price) == Wealth(SessionOf(now, k), price, n) + AllGone(line, k, price, n)
  {
    hide IsRun, ComesBack, GameInv, Wealth, AllAppeared, AllGone, SessionOf;
    line := LineageExists(lives, limitMs, j, i);
    forall m | 0 <= m < |line| ensures line[m].Last().nextDog <= n && line[m].Last().nextLoot <= n {
      assert line[m].Valid(limitMs);
      var l :| 0 <= l < |lives| && lives[l] == line[m].life;
      assert lives[l].run[line[m].end] == line[m].Last();
    }
    LineageMaps(line, limitMs);
    LineageLedger(line, limitMs, k, price, n);
  }

  lemma {:induction false} LineageMaps(line: seq<Stretch>, limitMs: nat)
    requires IsLineage(line, limitMs)
    ensures line[|line| - 1].Last().maps == line[0].First().maps && GameInv(line[|line| - 1].Last())
    decreases |line|
  {
    hide GameInv, ComesBack, Regained, IsRun;
    var st := line[|line| - 1];
    assert st.Valid(limitMs);
    RunsKeepInv(st.life.run, limitMs, st.life.steps, st.end);
    if |line| > 1 {
      var front := line[..|line| - 1];
      LineageFront(line, limitMs);
      LineageMaps(front, limitMs);
      ComingBack(front[|front| - 1].Last(), st.First());
      SameMaps(front[|front| - 1].Last(), st.First());
    }
  }
}
