/**
  Contested loot.  Each object goes to the first dog that passes it with room in its bag; a later one with
  room gets an empty slot, and the next office it visits ends the program.  Who has room follows from the
  bags at the start and the order of the hits alone.
 */
module SessionContest {
  import opened Wrappers
  import opened RoadMap
  import opened Dogs
  import opened SessionModel

  /** The state before the k-th hit. */
  function Before(values: seq<nat>, s: Session, hits: seq<Hit>, k: nat): Outcome
    requires DogsPresent(s, hits) && k <= |hits|
  {
    Replay(values, s, hits[..k])
  }

  /** The size of a bag before the k-th hit: objects passed since the last office, up to the capacity. */
  function BagLen(s: Session, hits: seq<Hit>, k: nat, dog: nat): nat
    requires k <= |hits| && dog in s.dogs
  {
    if k == 0 then |s.dogs[dog].bag|
    else
      var len := BagLen(s, hits, k - 1, dog);
      match hits[k - 1]
      case LootHit(d, _) => if d == dog && len < s.dogs[dog].bagCapacity then len + 1 else len
      case OfficeHit(d) => if d == dog then 0 else len
  }

  /** The k-th hit is on the object and its dog has room at that moment. */
  predicate PassesWithRoom(s: Session, hits: seq<Hit>, k: nat, loot: nat)
    requires DogsPresent(s, hits) && k < |hits|
  {
    && hits[k].LootHit? && hits[k].loot == loot
    && BagLen(s, hits, k, hits[k].dog) < s.dogs[hits[k].dog].bagCapacity
  }

  /** Somebody with room passes the object before the k-th hit. */
  ghost predicate PassedBefore(s: Session, hits: seq<Hit>, k: nat, loot: nat)
    requires DogsPresent(s, hits) && k <= |hits|
  {
    exists j: nat :: j < k && PassesWithRoom(s, hits, j, loot)
  }

  /** The k-th hit is at an object that somebody with room passed already, by a dog with room. */
  ghost predicate TakesEmpty(s: Session, hits: seq<Hit>, k: nat)
    requires DogsPresent(s, hits) && k < |hits|
  {
    hits[k].LootHit? && PassesWithRoom(s, hits, k, hits[k].loot) && PassedBefore(s, hits, k, hits[k].loot)
  }

  /** Some object is passed twice with room. */
  ghost predicate Contested(s: Session, hits: seq<Hit>)
    requires DogsPresent(s, hits)
  {
    exists k: nat :: k < |hits| && TakesEmpty(s, hits, k)
  }

  lemma StepBefore(values: seq<nat>, s: Session, hits: seq<Hit>, k: nat)
    requires DogsPresent(s, hits) && k < |hits|
    ensures Before(values, s, hits, k + 1) ==
            match Before(values, s, hits, k) case Fault => Fault case Fine(t) => AfterHit(values, t, hits[k])
  {
    assert hits[..k + 1][..k] == hits[..k];
  }

  /** The counted size is the size of the bag. */
  lemma {:induction false} BagLenIsLength(values: seq<nat>, s: Session, hits: seq<Hit>, k: nat, dog: nat)
    requires DogsPresent(s, hits) && k <= |hits| && dog in s.dogs && Before(values, s, hits, k).Fine?
    ensures var d := Before(values, s, hits, k).s.dogs[dog];
            |d.bag| == BagLen(s, hits, k, dog) && d.bagCapacity == s.dogs[dog].bagCapacity
  {
    if k > 0 {
      StepBefore(values, s, hits, k - 1);
      BagLenIsLength(values, s, hits, k - 1, dog);
    }
  }

  lemma RoomIsRoom(values: seq<nat>, s: Session, hits: seq<Hit>, k: nat)
    requires DogsPresent(s, hits) && k < |hits| && hits[k].LootHit? && Before(values, s, hits, k).Fine?
    ensures PassesWithRoom(s, hits, k, hits[k].loot) <==> !IsFullBag(Before(values, s, hits, k).s.dogs[hits[k].dog])
  {
    BagLenIsLength(values, s, hits, k, hits[k].dog);
  }

  /** An object is still on the map exactly as long as nobody with room has passed it. */
  lemma {:induction false} OnMapUntilPassed(values: seq<nat>, s: Session, hits: seq<Hit>, k: nat, loot: nat)
    requires DogsPresent(s, hits) && k <= |hits| && Before(values, s, hits, k).Fine?
    ensures loot in Before(values, s, hits, k).s.lost <==> loot in s.lost && !PassedBefore(s, hits, k, loot)
    ensures loot in Before(values, s, hits, k).s.lost ==> Before(values, s, hits, k).s.lost[loot] == s.lost[loot]
  {
    if k > 0 {
      StepBefore(values, s, hits, k - 1);
      OnMapUntilPassed(values, s, hits, k - 1, loot);
      PassedOneMore(s, hits, k - 1, loot);
      if hits[k - 1].LootHit? {
        RoomIsRoom(values, s, hits, k - 1);
      }
    }
  }

  lemma PassedOneMore(s: Session, hits: seq<Hit>, k: nat, loot: nat)
    requires DogsPresent(s, hits) && k < |hits|
    ensures PassedBefore(s, hits, k + 1, loot) <==>
            PassedBefore(s, hits, k, loot) || PassesWithRoom(s, hits, k, loot)
  {
  }

  /** The first dog that passes an object with room has it, as the last thing in its bag, right afterwards;
      from then on the object is off the map. */
  lemma FirstWithRoomTakesIt(values: seq<nat>, s: Session, hits: seq<Hit>, k: nat, loot: nat, later: nat)
    requires DogsPresent(s, hits) && k < later <= |hits| && loot in s.lost && Before(values, s, hits, k).Fine?
    requires PassesWithRoom(s, hits, k, loot) && !PassedBefore(s, hits, k, loot)
    ensures var t := Before(values, s, hits, k + 1);
            var bag := Before(values, s, hits, k).s.dogs[hits[k].dog].bag;
            t.Fine? && t.s.dogs[hits[k].dog].bag == bag + [Some(s.lost[loot])]
    ensures Before(values, s, hits, later).Fine? ==> loot !in Before(values, s, hits, later).s.lost
  {
    StepBefore(values, s, hits, k);
    RoomIsRoom(values, s, hits, k);
    OnMapUntilPassed(values, s, hits, k, loot);
    if Before(values, s, hits, later).Fine? {
      OnMapUntilPassed(values, s, hits, later, loot);
      assert PassedBefore(s, hits, later, loot);
    }
  }

  /** An object nobody with room passes stays on the map. */
  lemma UnpassedStays(values: seq<nat>, s: Session, hits: seq<Hit>, loot: nat)
    requires DogsPresent(s, hits) && loot in s.lost && Replay(values, s, hits).Fine?
    requires forall k: nat :: k < |hits| ==> !PassesWithRoom(s, hits, k, loot)
    ensures loot in Replay(values, s, hits).s.lost && Replay(values, s, hits).s.lost[loot] == s.lost[loot]
  {
    assert hits[..|hits|] == hits;
    OnMapUntilPassed(values, s, hits, |hits|, loot);
  }

  // ---------------------------------------------------------------------------------------------
  // When empty slots and faults arise

  ghost predicate TypesKnown(s: Session, values: seq<nat>) {
    && (forall id :: id in s.lost ==> LootKnown(s.lost[id], values))
    && (forall id :: id in s.dogs ==> BagKnown(s.dogs[id].bag, values))
  }

  ghost predicate LootPresent(s: Session, hits: seq<Hit>) {
    forall k :: 0 <= k < |hits| && hits[k].LootHit? ==> hits[k].loot in s.lost
  }

  lemma HitKeepsTypes(values: seq<nat>, s: Session, h: Hit)
    requires h.dog in s.dogs && TypesKnown(s, values) && AfterHit(values, s, h).Fine?
    ensures TypesKnown(AfterHit(values, s, h).s, values)
  {
  }

  lemma {:induction false} TypesKnownBefore(values: seq<nat>, s: Session, hits: seq<Hit>, k: nat)
    requires DogsPresent(s, hits) && k <= |hits| && TypesKnown(s, values) && Before(values, s, hits, k).Fine?
    ensures TypesKnown(Before(values, s, hits, k).s, values)
  {
    if k > 0 {
      StepBefore(values, s, hits, k - 1);
      TypesKnownBefore(values, s, hits, k - 1);
      HitKeepsTypes(values, Before(values, s, hits, k - 1).s, hits[k - 1]);
    }
  }

  /** What one hit does to the empty slots of a dog: a pass with room at an object that is gone adds one, and
      an office takes them to the fault. */
  lemma HitAndEmptySlots(values: seq<nat>, s: Session, h: Hit, dog: nat)
    requires h.dog in s.dogs && dog in s.dogs && TypesKnown(s, values)
    ensures AfterHit(values, s, h).Fault? <==> h.OfficeHit? && !NoPhantom(s.dogs[h.dog].bag)
    ensures AfterHit(values, s, h).Fine? ==>
              (NoPhantom(AfterHit(values, s, h).s.dogs[dog].bag) <==>
               NoPhantom(s.dogs[dog].bag) &&
               !(h.LootHit? && h.dog == dog && !IsFullBag(s.dogs[dog]) && h.loot !in s.lost))
  {
    if h.LootHit? && h.dog == dog && !IsFullBag(s.dogs[dog]) {
      var before, after := s.dogs[dog].bag, AfterHit(values, s, h).s.dogs[dog].bag;
      assert after == before + [Lookup(s.lost, h.loot)];
      assert after[|before|] == Lookup(s.lost, h.loot);
      assert forall i :: 0 <= i < |before| ==> after[i] == before[i];
    }
  }

  /** The dog had an empty slot at the start, or has taken one since. */
  ghost predicate CarriesEmpty(s: Session, hits: seq<Hit>, k: nat, dog: nat)
    requires DogsPresent(s, hits) && k <= |hits| && dog in s.dogs
  {
    !NoPhantom(s.dogs[dog].bag) || exists j: nat :: j < k && hits[j].dog == dog && TakesEmpty(s, hits, j)
  }

  lemma CarriesOneMore(s: Session, hits: seq<Hit>, k: nat, dog: nat)
    requires DogsPresent(s, hits) && k < |hits| && dog in s.dogs
    ensures CarriesEmpty(s, hits, k + 1, dog) <==>
            CarriesEmpty(s, hits, k, dog) || (hits[k].dog == dog && TakesEmpty(s, hits, k))
  {
    hide TakesEmpty;
  }

  /** A hit that goes well leaves an empty slot exactly if it takes one. */
  lemma TakingIsTaking(values: seq<nat>, s: Session, hits: seq<Hit>, k: nat)
    requires DogsPresent(s, hits) && LootPresent(s, hits) && k < |hits| && Before(values, s, hits, k).Fine?
    ensures TakesEmpty(s, hits, k) <==>
            hits[k].LootHit? && !IsFullBag(Before(values, s, hits, k).s.dogs[hits[k].dog])
            && hits[k].loot !in Before(values, s, hits, k).s.lost
  {
    if hits[k].LootHit? {
      RoomIsRoom(values, s, hits, k);
      OnMapUntilPassed(values, s, hits, k, hits[k].loot);
    }
  }

  /** As long as the replay goes well, the dogs with empty slots are those. */
  lemma {:induction false} EmptySlotsBefore(values: seq<nat>, s: Session, hits: seq<Hit>, k: nat, dog: nat)
    requires DogsPresent(s, hits) && LootPresent(s, hits) && TypesKnown(s, values)
    requires k <= |hits| && dog in s.dogs && Before(values, s, hits, k).Fine?
    ensures !NoPhantom(Before(values, s, hits, k).s.dogs[dog].bag) <==> CarriesEmpty(s, hits, k, dog)
  {
    if k > 0 {
      hide NoPhantom, TakesEmpty, CarriesEmpty, TypesKnown, LootPresent;
      StepBefore(values, s, hits, k - 1);
      EmptySlotsBefore(values, s, hits, k - 1, dog);
      TypesKnownBefore(values, s, hits, k - 1);
      HitAndEmptySlots(values, Before(values, s, hits, k - 1).s, hits[k - 1], dog);
      TakingIsTaking(values, s, hits, k - 1);
      CarriesOneMore(s, hits, k - 1, dog);
    } else {
      NothingTakenYet(values, s, hits, dog);
    }
  }

  lemma NothingTakenYet(values: seq<nat>, s: Session, hits: seq<Hit>, dog: nat)
    requires DogsPresent(s, hits) && dog in s.dogs
    ensures Before(values, s, hits, 0) == Fine(s) && (CarriesEmpty(s, hits, 0, dog) <==> !NoPhantom(s.dogs[dog].bag))
  {
  }

  /** The i-th hit is a visit to an office by a dog with an empty slot. */
  ghost predicate FaultsAt(s: Session, hits: seq<Hit>, i: nat)
    requires DogsPresent(s, hits) && i < |hits|
  {
    hits[i].OfficeHit? && CarriesEmpty(s, hits, i, hits[i].dog)
  }

  ghost predicate FaultsBefore(s: Session, hits: seq<Hit>, k: nat)
    requires DogsPresent(s, hits) && k <= |hits|
  {
    exists i: nat :: i < k && FaultsAt(s, hits, i)
  }

  lemma FaultsOneMore(s: Session, hits: seq<Hit>, k: nat)
    requires DogsPresent(s, hits) && k < |hits|
    ensures FaultsBefore(s, hits, k + 1) <==> FaultsBefore(s, hits, k) || FaultsAt(s, hits, k)
  {
    hide FaultsAt;
  }

  lemma {:induction false} FaultBeforeIff(values: seq<nat>, s: Session, hits: seq<Hit>, k: nat)
    requires DogsPresent(s, hits) && LootPresent(s, hits) && TypesKnown(s, values) && k <= |hits|
    ensures Before(values, s, hits, k).Fault? <==> FaultsBefore(s, hits, k)
  {
    if k > 0 {
      hide FaultsBefore, CarriesEmpty, NoPhantom, TypesKnown, LootPresent;
      FaultBeforeIff(values, s, hits, k - 1);
      StepBefore(values, s, hits, k - 1);
      FaultsOneMore(s, hits, k - 1);
      if Before(values, s, hits, k - 1).Fine? {
        var dog := hits[k - 1].dog;
        TypesKnownBefore(values, s, hits, k - 1);
        HitAndEmptySlots(values, Before(values, s, hits, k - 1).s, hits[k - 1], dog);
        EmptySlotsBefore(values, s, hits, k - 1, dog);
      }
    }
  }

  /** The replay faults exactly when a dog reaches an office after it passed, with room, an object that had been
      passed with room before, or with an empty slot from an earlier tick. */
  lemma FaultIff(values: seq<nat>, s: Session, hits: seq<Hit>)
    requires DogsPresent(s, hits) && LootPresent(s, hits) && TypesKnown(s, values)
    ensures Replay(values, s, hits).Fault? <==> FaultsBefore(s, hits, |hits|)
  {
    assert hits[..|hits|] == hits;
    FaultBeforeIff(values, s, hits, |hits|);
  }

  /** The same, from a session without empty slots, spelled out. */
  lemma FaultFromCleanIff(values: seq<nat>, s: Session, hits: seq<Hit>)
    requires DogsPresent(s, hits) && LootPresent(s, hits) && TypesKnown(s, values) && NoPhantoms(s)
    ensures Replay(values, s, hits).Fault? <==>
            exists j: nat, i: nat :: j < i < |hits| && TakesEmpty(s, hits, j) && hits[i] == OfficeHit(hits[j].dog)
  {
    hide TakesEmpty;
    FaultIff(values, s, hits);
    if i: nat :| i < |hits| && FaultsAt(s, hits, i) {
      var j: nat :| j < i && hits[j].dog == hits[i].dog && TakesEmpty(s, hits, j);
    }
    if j: nat, i: nat :| j < i < |hits| && TakesEmpty(s, hits, j) && hits[i] == OfficeHit(hits[j].dog) {
      assert FaultsAt(s, hits, i);
    }
  }

  /** From a session without empty slots, a tick's replay neither faults nor leaves an empty slot exactly when
      no object is passed twice with room. */
  lemma CleanIffUncontested(values: seq<nat>, s: Session, hits: seq<Hit>)
    requires DogsPresent(s, hits) && LootPresent(s, hits) && TypesKnown(s, values) && NoPhantoms(s)
    ensures (Replay(values, s, hits).Fine? && NoPhantoms(Replay(values, s, hits).s)) <==> !Contested(s, hits)
  {
    hide TakesEmpty, NoPhantom, TypesKnown, LootPresent;
    assert hits[..|hits|] == hits;
    FaultFromCleanIff(values, s, hits);
    if Replay(values, s, hits).Fine? {
      forall dog | dog in s.dogs
        ensures !NoPhantom(Replay(values, s, hits).s.dogs[dog].bag) <==> CarriesEmpty(s, hits, |hits|, dog)
      {
        EmptySlotsBefore(values, s, hits, |hits|, dog);
      }
      if k: nat :| k < |hits| && TakesEmpty(s, hits, k) {
        assert CarriesEmpty(s, hits, |hits|, hits[k].dog);
      }
    }
  }

  /** Whatever happens, no bag exceeds its capacity. */
  lemma {:induction false} BagsKeepCapacity(values: seq<nat>, s: Session, hits: seq<Hit>)
    requires DogsPresent(s, hits) && Replay(values, s, hits).Fine?
    requires forall id :: id in s.dogs ==> |s.dogs[id].bag| <= s.dogs[id].bagCapacity
    ensures var t := Replay(values, s, hits).s;
            forall id :: id in t.dogs ==> |t.dogs[id].bag| <= t.dogs[id].bagCapacity == s.dogs[id].bagCapacity
  {
    if hits != [] {
      BagsKeepCapacity(values, s, hits[..|hits| - 1]);
    }
  }
}
