/**
  Conservation of loot in a session.  Every object that ever appeared is on the map, in a bag, exchanged
  for score, or gone with a retired dog; no operation changes the balance of these for any way of weighing
  objects.  Weighing by value gives the ledger of the score; weighing one object alone says that it is in
  exactly one place.
 */
module SessionLedger {
  import opened Wrappers
  import opened RoadMap
  import opened Dogs
  import opened Sums
  import opened SessionModel

  type Weight = Loot -> nat

  function InBag(w: Weight): DogState -> nat {
    (d: DogState) => SumSeq(Objects(d.bag), w)
  }

  /** The weight on the map, in bags, exchanged and gone, for a session with all ids below n. */
  function Holdings(s: Session, w: Weight, n: nat): nat {
    Sum(s.lost, w, n) + Sum(s.dogs, InBag(w), n) + SumSeq(s.history.cashed, w) + Sum(s.history.retired, InBag(w), n)
  }

  function Appeared(s: Session, w: Weight): nat { SumSeq(s.history.generated, w) }

  /** Whatever appeared between the two states is what the holdings grew by. */
  ghost predicate Balanced(s: Session, t: Session, w: Weight, n: nat) {
    Holdings(t, w, n) - Holdings(s, w, n) == Appeared(t, w) - Appeared(s, w)
  }

  ghost predicate Bounded(s: Session, n: nat) {
    && (forall id :: id in s.lost ==> id < n)
    && (forall id :: id in s.dogs ==> id < n)
    && (forall id :: id in s.history.retired ==> id < n)
  }

  lemma ObjectsOfExtendedBag(bag: Bag, slot: Option<Loot>, w: Weight)
    ensures SumSeq(Objects(bag + [slot]), w) == SumSeq(Objects(bag), w) + match slot case Some(l) => w(l) case None => 0
  {
    assert (bag + [slot])[..|bag|] == bag;
    match slot {
      case Some(l) => SumSeqOne(Objects(bag), l, w);
      case None => assert Objects(bag) + [] == Objects(bag);
    }
  }

  /** Taking an object moves its weight from the map into the bag. */
  lemma CollectBalances(s: Session, dog: nat, loot: nat, w: Weight, n: nat)
    requires dog in s.dogs && Bounded(s, n)
    ensures Balanced(s, AfterCollect(s, dog, loot), w, n) && Bounded(AfterCollect(s, dog, loot), n)
  {
    var t := AfterCollect(s, dog, loot);
    if !IsFullBag(s.dogs[dog]) {
      SumDiffers(s.lost, t.lost, w, n, loot);
      SumDiffers(s.dogs, t.dogs, InBag(w), n, dog);
      ObjectsOfExtendedBag(s.dogs[dog].bag, Lookup(s.lost, loot), w);
    }
  }

  /** Exchanging a bag moves its weight into the exchanged objects. */
  lemma DropBalances(values: seq<nat>, s: Session, dog: nat, w: Weight, n: nat)
    requires dog in s.dogs && Bounded(s, n) && AfterDrop(values, s, dog).Fine?
    ensures Balanced(s, AfterDrop(values, s, dog).s, w, n) && Bounded(AfterDrop(values, s, dog).s, n)
  {
    var t := AfterDrop(values, s, dog).s;
    if s.dogs[dog].bag != [] {
      SumDiffers(s.dogs, t.dogs, InBag(w), n, dog);
      SumSeqConcat(s.history.cashed, Objects(s.dogs[dog].bag), w);
    }
  }

  lemma {:induction false} ReplayBalances(values: seq<nat>, s: Session, hits: seq<Hit>, w: Weight, n: nat)
    requires DogsPresent(s, hits) && Bounded(s, n) && Replay(values, s, hits).Fine?
    ensures Balanced(s, Replay(values, s, hits).s, w, n) && Bounded(Replay(values, s, hits).s, n)
  {
    if hits != [] {
      var front, last := hits[..|hits| - 1], hits[|hits| - 1];
      ReplayBalances(values, s, front, w, n);
      var t := Replay(values, s, front).s;
      match last {
        case LootHit(dog, loot) => CollectBalances(t, dog, loot, w, n);
        case OfficeHit(dog) => DropBalances(values, t, dog, w, n);
      }
    }
  }

  lemma MoveBalances(m: GameMap, s: Session, deltaMs: nat, w: Weight, n: nat)
    requires Bounded(s, n)
    ensures Balanced(s, Moved(m, s, deltaMs), w, n) && Bounded(Moved(m, s, deltaMs), n)
  {
    var t := Moved(m, s, deltaMs);
    forall i ensures At(s.dogs, InBag(w), i) == At(t.dogs, InBag(w), i) {
      hide Travel, Target;
    }
    SumAgrees(s.dogs, t.dogs, InBag(w), n);
  }

  /** A new dog brings what is in its bag. */
  lemma AddDogBalances(s: Session, d: DogState, w: Weight, n: nat)
    requires Bounded(s, n) && d.id < n && d.id !in s.dogs && d.bag == []
    ensures Balanced(s, AfterAddDog(s, d), w, n) && Bounded(AfterAddDog(s, d), n)
  {
    SumDiffers(s.dogs, AfterAddDog(s, d).dogs, InBag(w), n, d.id);
  }

  lemma AddLootBalances(s: Session, l: Loot, w: Weight, n: nat)
    requires Bounded(s, n) && l.id < n && l.id !in s.lost
    ensures Balanced(s, AfterAddLoot(s, l), w, n) && Bounded(AfterAddLoot(s, l), n)
  {
    SumDiffers(s.lost, AfterAddLoot(s, l).lost, w, n, l.id);
    SumSeqOne(s.history.generated, l, w);
  }

  /** Objects with consecutive new ids. */
  ghost predicate FreshLoots(ls: seq<Loot>, first: nat) {
    forall i :: 0 <= i < |ls| ==> ls[i].id == first + i
  }

  lemma {:induction false} AddLootsBalances(s: Session, ls: seq<Loot>, first: nat, w: Weight, n: nat)
    requires Bounded(s, n) && FreshLoots(ls, first) && first + |ls| <= n
    requires forall id :: id in s.lost ==> id < first
    ensures var t := AfterAddLoots(s, ls); Balanced(s, t, w, n) && Bounded(t, n)
    ensures var t := AfterAddLoots(s, ls); forall id :: id in t.lost ==> id < first + |ls|
  {
    if ls != [] {
      var front, last := ls[..|ls| - 1], ls[|ls| - 1];
      AddLootsBalances(s, front, first, w, n);
      AddLootBalances(AfterAddLoots(s, front), last, w, n);
    }
  }

  lemma RemoveDogBalances(s: Session, dog: nat, w: Weight, n: nat)
    requires Bounded(s, n) && dog !in s.history.retired
    ensures Balanced(s, AfterRemoveDog(s, dog), w, n) && Bounded(AfterRemoveDog(s, dog), n)
  {
    var t := AfterRemoveDog(s, dog);
    SumDiffers(s.dogs, t.dogs, InBag(w), n, dog);
    SumDiffers(s.history.retired, t.history.retired, InBag(w), n, dog);
  }

  // ---------------------------------------------------------------------------------------------
  // Score

  function Score(): DogState -> nat { (d: DogState) => d.score }

  /** Objects of the types in the table weigh their value. */
  ghost predicate Prices(price: Weight, values: seq<nat>) {
    forall l: Loot :: l.lootType < |values| ==> price(l) == values[l.lootType]
  }

  /** There are such weights for every table. */
  function FromTable(values: seq<nat>): Weight {
    (l: Loot) => if l.lootType < |values| then values[l.lootType] else 0
  }

  /** The score of all dogs, live and gone. */
  function Scores(s: Session, n: nat): nat { Sum(s.dogs, Score(), n) + Sum(s.history.retired, Score(), n) }

  ghost predicate ScoreBalanced(price: Weight, s: Session, t: Session, n: nat) {
    Scores(t, n) - Scores(s, n) == SumSeq(t.history.cashed, price) - SumSeq(s.history.cashed, price)
  }

  /** Whatever prices fit the table, a sound bag is worth the sum of them. */
  lemma {:induction false} BagAtPrices(bag: Bag, values: seq<nat>, price: Weight)
    requires Sound(bag, values) && Prices(price, values)
    ensures BagValue(bag, values) == SumSeq(Objects(bag), price)
  {
    if bag != [] {
      BagAtPrices(bag[..|bag| - 1], values, price);
      assert bag == bag[..|bag| - 1] + [bag[|bag| - 1]];
      ObjectsOfExtendedBag(bag[..|bag| - 1], bag[|bag| - 1], price);
    }
  }

  lemma HitScores(values: seq<nat>, s: Session, h: Hit, price: Weight, n: nat)
    requires h.dog in s.dogs && Bounded(s, n) && AfterHit(values, s, h).Fine? && Prices(price, values)
    ensures ScoreBalanced(price, s, AfterHit(values, s, h).s, n)
  {
    var t := AfterHit(values, s, h).s;
    SumDiffers(s.dogs, t.dogs, Score(), n, h.dog);
    if h.OfficeHit? && s.dogs[h.dog].bag != [] {
      BagAtPrices(s.dogs[h.dog].bag, values, price);
      SumSeqConcat(s.history.cashed, Objects(s.dogs[h.dog].bag), price);
    }
  }

  lemma {:induction false} ReplayScores(values: seq<nat>, s: Session, hits: seq<Hit>, price: Weight, n: nat)
    requires DogsPresent(s, hits) && Bounded(s, n) && Replay(values, s, hits).Fine? && Prices(price, values)
    ensures ScoreBalanced(price, s, Replay(values, s, hits).s, n)
  {
    if hits != [] {
      var front := hits[..|hits| - 1];
      ReplayScores(values, s, front, price, n);
      ReplayBalances(values, s, front, price, n);
      HitScores(values, Replay(values, s, front).s, hits[|hits| - 1], price, n);
    }
  }

  lemma MoveScores(m: GameMap, price: Weight, s: Session, deltaMs: nat, n: nat)
    ensures ScoreBalanced(price, s, Moved(m, s, deltaMs), n)
  {
    var t := Moved(m, s, deltaMs);
    forall i ensures At(s.dogs, Score(), i) == At(t.dogs, Score(), i) {
      hide Travel, Target;
    }
    SumAgrees(s.dogs, t.dogs, Score(), n);
  }

  lemma AddDogScores(price: Weight, s: Session, d: DogState, n: nat)
    requires d.id !in s.dogs && d.score == 0
    ensures ScoreBalanced(price, s, AfterAddDog(s, d), n)
  {
    SumDiffers(s.dogs, AfterAddDog(s, d).dogs, Score(), n, d.id);
  }

  lemma {:induction false} AddLootsScores(price: Weight, s: Session, ls: seq<Loot>, n: nat)
    ensures var t := AfterAddLoots(s, ls);
            t.dogs == s.dogs && t.history.cashed == s.history.cashed && t.history.retired == s.history.retired
    ensures ScoreBalanced(price, s, AfterAddLoots(s, ls), n)
  {
    if ls != [] {
      AddLootsScores(price, s, ls[..|ls| - 1], n);
    }
  }

  lemma RemoveDogScores(price: Weight, s: Session, dog: nat, n: nat)
    requires Bounded(s, n) && dog !in s.history.retired
    ensures ScoreBalanced(price, s, AfterRemoveDog(s, dog), n)
  {
    var t := AfterRemoveDog(s, dog);
    SumDiffers(s.dogs, t.dogs, Score(), n, dog);
    SumDiffers(s.history.retired, t.history.retired, Score(), n, dog);
  }
}
