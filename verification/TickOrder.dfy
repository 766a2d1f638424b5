/**
  The order in which containers are walked, and in which events of one moment are handled, makes no difference to a
  tick as long as no dog and no object takes part in two of them at once.
 */
module TickOrder {
  import opened Wrappers
  import opened Geometry
  import opened RoadMap
  import opened Dogs
  import opened CollisionDetector
  import opened Sorting
  import opened SessionModel
  import opened SessionTick

  // ---------------------------------------------------------------------------------------------
  // Hits that do not meet may change places

  /** The same but for the order of the exchanged objects. */
  ghost predicate SameSession(s: Session, t: Session) {
    && t == s.(history := s.history.(cashed := t.history.cashed))
    && multiset(t.history.cashed) == multiset(s.history.cashed)
  }

  ghost predicate SameOutcome(o: Outcome, p: Outcome) {
    match (o, p)
    case (Fault, Fault) => true
    case (Fine(s), Fine(t)) => SameSession(s, t)
    case _ => false
  }

  /** Different dogs at different things, or one dog at two offices. */
  predicate Apart(g: Hit, h: Hit) {
    if g.dog == h.dog then g.OfficeHit? && h.OfficeHit?
    else g.LootHit? && h.LootHit? ==> g.loot != h.loot
  }

  ghost predicate Has(o: Outcome, dog: nat) { o.Fine? ==> dog in o.s.dogs }

  function Then(values: seq<nat>, o: Outcome, h: Hit): Outcome
    requires Has(o, h.dog)
  {
    match o case Fault => Fault case Fine(s) => AfterHit(values, s, h)
  }

  lemma ThenKeepsDogs(values: seq<nat>, o: Outcome, h: Hit, dog: nat)
    requires Has(o, h.dog) && Has(o, dog)
    ensures Has(Then(values, o, h), dog)
  {
  }

  lemma SameThen(values: seq<nat>, o: Outcome, p: Outcome, h: Hit)
    requires SameOutcome(o, p) && Has(o, h.dog)
    ensures Has(p, h.dog) && SameOutcome(Then(values, o, h), Then(values, p, h))
  {
  }

  lemma SameChain(o: Outcome, p: Outcome, q: Outcome)
    requires SameOutcome(o, p) && SameOutcome(p, q)
    ensures SameOutcome(o, q)
  {
  }

  lemma CollectsCommute(s: Session, d: nat, l: nat, e: nat, k: nat)
    requires d in s.dogs && e in s.dogs && d != e && l != k
    ensures e in AfterCollect(s, d, l).dogs && d in AfterCollect(s, e, k).dogs
    ensures AfterCollect(AfterCollect(s, d, l), e, k) == AfterCollect(AfterCollect(s, e, k), d, l)
  {
  }

  lemma CollectAndDropCommute(values: seq<nat>, s: Session, d: nat, l: nat, e: nat)
    requires d in s.dogs && e in s.dogs && d != e
    ensures e in AfterCollect(s, d, l).dogs
    ensures var dropped := AfterDrop(values, s, e);
            if dropped.Fault? then AfterDrop(values, AfterCollect(s, d, l), e).Fault?
            else d in dropped.s.dogs
                 && AfterDrop(values, AfterCollect(s, d, l), e) == Fine(AfterCollect(dropped.s, d, l))
  {
    hide Sound, Dropped, Collected;
  }

  lemma DropLeavesOthers(values: seq<nat>, s: Session, d: nat, e: nat)
    requires d in s.dogs && e in s.dogs && d != e && AfterDrop(values, s, d).Fine?
    ensures var t := AfterDrop(values, s, d).s;
            && e in t.dogs && t.dogs[e] == s.dogs[e] && t.dogs == s.dogs[d := t.dogs[d]] && t.lost == s.lost
            && t.history == s.history.(cashed := s.history.cashed + Objects(s.dogs[d].bag))
            && t.dogs[d] == if s.dogs[d].bag == [] then s.dogs[d] else Dropped(s.dogs[d], values)
  {
    hide Sound, Dropped;
  }

  lemma SwapAtEnd(all: seq<Loot>, a: seq<Loot>, b: seq<Loot>)
    ensures multiset(all + a + b) == multiset(all + b + a)
  {
  }

  lemma DropFaultIff(values: seq<nat>, s: Session, d: nat)
    requires d in s.dogs
    ensures AfterDrop(values, s, d).Fault? <==> s.dogs[d].bag != [] && !Sound(s.dogs[d].bag, values)
  {
  }

  lemma DropsCommute(values: seq<nat>, s: Session, d: nat, e: nat)
    requires d in s.dogs && e in s.dogs && d != e
    ensures SameOutcome(Then(values, AfterDrop(values, s, d), OfficeHit(e)),
        Then(values, AfterDrop(values, s, e), OfficeHit(d)))
  {
    hide Sound, Dropped, Objects, AfterDrop;
    DropFaultIff(values, s, d);
    DropFaultIff(values, s, e);
    if AfterDrop(values, s, d).Fine? {
      DropLeavesOthers(values, s, d, e);
      DropFaultIff(values, AfterDrop(values, s, d).s, e);
    }
    if AfterDrop(values, s, e).Fine? {
      DropLeavesOthers(values, s, e, d);
      DropFaultIff(values, AfterDrop(values, s, e).s, d);
    }
    if AfterDrop(values, s, d).Fine? && AfterDrop(values, s, e).Fine? {
      DropLeavesOthers(values, AfterDrop(values, s, d).s, e, d);
      DropLeavesOthers(values, AfterDrop(values, s, e).s, d, e);
      SwapAtEnd(s.history.cashed, Objects(s.dogs[d].bag), Objects(s.dogs[e].bag));
    }
  }

  lemma SameAsItself(o: Outcome)
    ensures SameOutcome(o, o)
  {
  }

  lemma Commute(values: seq<nat>, o: Outcome, g: Hit, h: Hit)
    requires Has(o, g.dog) && Has(o, h.dog) && Apart(g, h)
    ensures Has(Then(values, o, g), h.dog) && Has(Then(values, o, h), g.dog)
    ensures SameOutcome(Then(values, Then(values, o, g), h), Then(values, Then(values, o, h), g))
  {
    ThenKeepsDogs(values, o, g, h.dog);
    ThenKeepsDogs(values, o, h, g.dog);
    SameAsItself(Then(values, Then(values, o, h), g));
    hide AfterCollect, AfterDrop, SameSession;
    if o.Fine? && g.dog != h.dog {
      match (g, h) {
        case (LootHit(d, l), LootHit(e, k)) => CollectsCommute(o.s, d, l, e, k);
        case (LootHit(d, l), OfficeHit(e)) => CollectAndDropCommute(values, o.s, d, l, e);
        case (OfficeHit(d), LootHit(e, k)) => CollectAndDropCommute(values, o.s, e, k, d);
        case (OfficeHit(d), OfficeHit(e)) => DropsCommute(values, o.s, d, e);
      }
    }
  }

  /** When two hits of one moment may be handled in either order: they are apart, or the dogs have no room, or there is
      nothing left to take, or the bag is faulty anyway. */
  predicate MaySwap(values: seq<nat>, s: Session, g: Hit, h: Hit)
    requires g.dog in s.dogs && h.dog in s.dogs
  {
    var d, e := s.dogs[g.dog], s.dogs[h.dog];
    if Apart(g, h) then true
    else if g.LootHit? && h.LootHit? then
      if g.dog == h.dog then IsFullBag(d) || g.loot == h.loot || (g.loot !in s.lost && h.loot !in s.lost)
      else IsFullBag(d) || IsFullBag(e) || g.loot !in s.lost
    else d.bagCapacity == 0 || !Sound(d.bag, values)
  }

  ghost predicate OrderIsFree(values: seq<nat>, s: Session, g: Hit, h: Hit)
    requires g.dog in s.dogs && h.dog in s.dogs
  {
    && Has(Then(values, Fine(s), g), h.dog) && Has(Then(values, Fine(s), h), g.dog)
    && SameOutcome(Then(values, Then(values, Fine(s), g), h), Then(values, Then(values, Fine(s), h), g))
  }

  lemma OneDogTwoObjects(values: seq<nat>, s: Session, dog: nat, l: nat, k: nat)
    requires dog in s.dogs && forall id :: id in s.lost ==> s.lost[id].id == id
    ensures OrderIsFree(values, s, LootHit(dog, l), LootHit(dog, k)) <==>
              IsFullBag(s.dogs[dog]) || l == k || (l !in s.lost && k !in s.lost)
  {
    var x, y := Lookup(s.lost, l), Lookup(s.lost, k);
    if !IsFullBag(s.dogs[dog]) && l != k {
      var bag := s.dogs[dog].bag;
      var one, other := AfterCollect(AfterCollect(s, dog, l), dog, k), AfterCollect(AfterCollect(s, dog, k), dog, l);
      assert one.dogs[dog].bag[|bag|] == x && other.dogs[dog].bag[|bag|] == y;
    }
  }

  lemma TwoDogsOneObject(values: seq<nat>, s: Session, d: nat, e: nat, l: nat)
    requires d in s.dogs && e in s.dogs && d != e
    ensures OrderIsFree(values, s, LootHit(d, l), LootHit(e, l)) <==>
              IsFullBag(s.dogs[d]) || IsFullBag(s.dogs[e]) || l !in s.lost
  {
    if !IsFullBag(s.dogs[d]) && !IsFullBag(s.dogs[e]) {
      var bag := s.dogs[d].bag;
      var one, other := AfterCollect(AfterCollect(s, d, l), e, l), AfterCollect(AfterCollect(s, e, l), d, l);
      assert one.dogs[d].bag[|bag|] == Lookup(s.lost, l) && other.dogs[d].bag[|bag|] == None;
    }
  }

  lemma DropEmpties(values: seq<nat>, s: Session, dog: nat)
    requires dog in s.dogs
    ensures AfterDrop(values, s, dog).Fault? <==> !Sound(s.dogs[dog].bag, values)
    ensures AfterDrop(values, s, dog).Fine? ==>
              var t := AfterDrop(values, s, dog).s;
              dog in t.dogs && t.dogs[dog].bag == [] && t.dogs[dog].bagCapacity == s.dogs[dog].bagCapacity
  {
    hide BagValue;
  }

  lemma SoundBefore(bag: Bag, slot: Option<Loot>, values: seq<nat>)
    requires Sound(bag + [slot], values)
    ensures Sound(bag, values)
  {
    forall i | 0 <= i < |bag| ensures bag[i].Some? && bag[i].value.lootType < |values| {
      assert (bag + [slot])[i] == bag[i];
    }
  }

  lemma BagsDiffer(s: Session, t: Session, dog: nat)
    requires dog in s.dogs && dog in t.dogs && s.dogs[dog].bag != t.dogs[dog].bag
    ensures !SameOutcome(Fine(s), Fine(t))
  {
  }

  /** With no room the object is left, before the office and, without capacity, after it. */
  lemma FullAndOffice(values: seq<nat>, s: Session, dog: nat, l: nat)
    requires dog in s.dogs && IsFullBag(s.dogs[dog])
    ensures OrderIsFree(values, s, LootHit(dog, l), OfficeHit(dog)) <==>
              s.dogs[dog].bagCapacity == 0 || !Sound(s.dogs[dog].bag, values)
  {
    DropEmpties(values, s, dog);
    var o := AfterDrop(values, s, dog);
    hide AfterDrop, Sound, SameOutcome;
    SameAsItself(o);
    if o.Fine? && s.dogs[dog].bagCapacity > 0 {
      BagsDiffer(o.s, AfterCollect(o.s, dog, l), dog);
    }
  }

  /** With room the object is exchanged, or stays in the bag. */
  lemma RoomAndOffice(values: seq<nat>, s: Session, dog: nat, l: nat)
    requires dog in s.dogs && !IsFullBag(s.dogs[dog])
    ensures OrderIsFree(values, s, LootHit(dog, l), OfficeHit(dog)) <==> !Sound(s.dogs[dog].bag, values)
  {
    DropEmpties(values, s, dog);
    var t, o := AfterCollect(s, dog, l), AfterDrop(values, s, dog);
    DropEmpties(values, t, dog);
    var u := AfterDrop(values, t, dog);
    if u.Fine? {
      SoundBefore(s.dogs[dog].bag, Lookup(s.lost, l), values);
    }
    hide AfterDrop, Sound;
    if u.Fine? && o.Fine? {
      BagsDiffer(u.s, AfterCollect(o.s, dog, l), dog);
    }
  }

  lemma ObjectAndOffice(values: seq<nat>, s: Session, dog: nat, l: nat)
    requires dog in s.dogs
    ensures OrderIsFree(values, s, LootHit(dog, l), OfficeHit(dog)) <==>
              s.dogs[dog].bagCapacity == 0 || !Sound(s.dogs[dog].bag, values)
  {
    hide OrderIsFree, Sound;
    if IsFullBag(s.dogs[dog]) {
      FullAndOffice(values, s, dog, l);
    } else {
      RoomAndOffice(values, s, dog, l);
    }
  }

  lemma FreeIfApart(values: seq<nat>, s: Session, g: Hit, h: Hit)
    requires g.dog in s.dogs && h.dog in s.dogs && Apart(g, h)
    ensures OrderIsFree(values, s, g, h)
  {
    Commute(values, Fine(s), g, h);
  }

  /** Two hits of one moment have one outcome in either order exactly if they may swap. */
  lemma SwapIff(values: seq<nat>, s: Session, g: Hit, h: Hit)
    requires g.dog in s.dogs && h.dog in s.dogs && forall id :: id in s.lost ==> s.lost[id].id == id
    ensures OrderIsFree(values, s, g, h) <==> MaySwap(values, s, g, h)
  {
    hide IsFullBag, Sound, OrderIsFree;
    if Apart(g, h) {
      FreeIfApart(values, s, g, h);
    } else {
      match (g, h) {
        case (LootHit(d, l), LootHit(e, k)) =>
          if d == e {
            OneDogTwoObjects(values, s, d, l, k);
          } else {
            TwoDogsOneObject(values, s, d, e, l);
          }
        case (LootHit(d, l), OfficeHit(_)) => ObjectAndOffice(values, s, d, l);
        case (OfficeHit(d), LootHit(_, k)) =>
          ObjectAndOffice(values, s, d, k);
          FreeEitherWay(values, s, g, h);
        case _ =>
      }
    }
  }

  lemma FreeEitherWay(values: seq<nat>, s: Session, g: Hit, h: Hit)
    requires g.dog in s.dogs && h.dog in s.dogs
    ensures OrderIsFree(values, s, g, h) <==> OrderIsFree(values, s, h, g)
  {
    hide Then;
  }

  // ---------------------------------------------------------------------------------------------
  // A hit that is apart from all later ones may come last

  function Without<T>(s: seq<T>, p: nat): seq<T>
    requires p < |s|
  {
    s[..p] + s[p + 1..]
  }

  lemma ReplayOneMore(values: seq<nat>, s: Session, hits: seq<Hit>, h: Hit)
    requires DogsPresent(s, hits) && h.dog in s.dogs
    ensures DogsPresent(s, hits + [h]) && Has(Replay(values, s, hits), h.dog)
    ensures Replay(values, s, hits + [h]) == Then(values, Replay(values, s, hits), h)
  {
    assert (hits + [h])[..|hits|] == hits;
  }

  /** y was handled after x; it may as well be handled before. */
  lemma Overtake(values: seq<nat>, s: Session, front: seq<Hit>, rest: seq<Hit>, x: Hit, y: Hit)
    requires DogsPresent(s, front) && DogsPresent(s, rest) && x.dog in s.dogs && y.dog in s.dogs && Apart(x, y)
    requires DogsPresent(s, rest + [x]) && SameOutcome(Replay(values, s, front), Replay(values, s, rest + [x]))
    ensures DogsPresent(s, front + [y]) && DogsPresent(s, rest + [y] + [x])
    ensures SameOutcome(Replay(values, s, front + [y]), Replay(values, s, rest + [y] + [x]))
  {
    hide Replay, Then, SameOutcome, Apart;
    ReplayOneMore(values, s, front, y);
    ReplayOneMore(values, s, rest, x);
    ReplayOneMore(values, s, rest, y);
    ReplayOneMore(values, s, rest + [y], x);
    var o := Replay(values, s, rest);
    SameThen(values, Replay(values, s, front), Then(values, o, x), y);
    Commute(values, o, x, y);
    SameChain(Replay(values, s, front + [y]), Then(values, Then(values, o, x), y), Then(values, Then(values, o, y), x));
  }

  lemma {:induction false} MayComeLast(values: seq<nat>, s: Session, hits: seq<Hit>, p: nat)
    requires DogsPresent(s, hits) && p < |hits| && forall q :: p < q < |hits| ==> Apart(hits[p], hits[q])
    ensures DogsPresent(s, Without(hits, p) + [hits[p]])
    ensures SameOutcome(Replay(values, s, hits), Replay(values, s, Without(hits, p) + [hits[p]]))
    decreases |hits|
  {
    hide Replay, SameOutcome, Apart;
    var last := |hits| - 1;
    if p == last {
      assert Without(hits, p) + [hits[p]] == hits;
      SameAsItself(Replay(values, s, hits));
    } else {
      var front, x, y := hits[..last], hits[p], hits[last];
      MayComeLast(values, s, front, p);
      Overtake(values, s, front, Without(front, p), x, y);
      assert front + [y] == hits && Without(front, p) + [y] == Without(hits, p);
    }
  }

  // ---------------------------------------------------------------------------------------------
  // Meetings: events without regard to the order of containers

  datatype Place = AtLoot(id: nat) | AtOffice(n: nat)

  datatype Meeting = Meeting(dog: nat, place: Place, time: real)

  predicate HasPlace(m: GameMap, s: Session, p: Place) {
    match p case AtLoot(id) => id in s.lost case AtOffice(n) => n < |m.offices|
  }

  function ItemAt(m: GameMap, s: Session, p: Place): Item
    requires HasPlace(m, s, p)
  {
    match p case AtLoot(id) => LootItem(s.lost[id]) case AtOffice(n) => OfficeItem(m.offices[n])
  }

  function HitAt(e: Meeting): Hit {
    match e.place case AtLoot(id) => LootHit(e.dog, id) case AtOffice(_) => OfficeHit(e.dog)
  }

  /** The way of the gatherer passes the point, with the given width around it, at that share of the way. */
  ghost predicate Passes(g: Gatherer, p: Vec, width: real, time: real) {
    && g.startPos != g.endPos
    && FootOnWay(g.startPos, g.endPos, p) && PassesWithin(g.startPos, g.endPos, p, width + g.width)
    && time * SqLen(Sub(g.endPos, g.startPos)) == Dot(Sub(p, g.startPos), Sub(g.endPos, g.startPos))
  }

  /** A dog's segment passes a lost object, which has no width, or an office, which is half a unit wide. */
  ghost predicate Meets(m: GameMap, s: Session, e: Meeting) {
    e.dog in s.dogs &&
    match e.place
    case AtLoot(id) => id in s.lost && Passes(s.dogs[e.dog].gatherer, s.lost[id].position, 0.0, e.time)
    case AtOffice(n) => n < |m.offices| && Passes(s.dogs[e.dog].gatherer, m.offices[n].position, 0.5, e.time)
  }

  lemma PassesIff(g: Gatherer, item: Item, time: real)
    ensures Passes(g, item.position, item.width, time) <==>
            Collects(g, item) && time == TryCollectPoint(g.startPos, g.endPos, item.position).projRatio
  {
    hide FootOnWay, PassesWithin, TryCollectPoint, Dot, SqLen;
    CollectsIff(g, item);
    if g.startPos != g.endPos {
      TimeIsShareOfWay(g.startPos, g.endPos, item.position, time);
    }
  }

  lemma MeetsIff(m: GameMap, s: Session, e: Meeting)
    ensures Meets(m, s, e) <==>
            && e.dog in s.dogs && HasPlace(m, s, e.place)
            && var g, item := s.dogs[e.dog].gatherer, ItemAt(m, s, e.place);
               Collects(g, item) && e.time == TryCollectPoint(g.startPos, g.endPos, item.position).projRatio
  {
    if e.dog in s.dogs && HasPlace(m, s, e.place) {
      PassesIff(s.dogs[e.dog].gatherer, ItemAt(m, s, e.place), e.time);
    }
    hide Passes, Collects, TryCollectPoint;
  }

  /** One dog, unless at two offices, or one object. */
  predicate Touch(a: Meeting, b: Meeting) { !Apart(HitAt(a), HitAt(b)) }

  /** No dog and no object takes part in two meetings at once, but for a dog at two offices. */
  ghost predicate NoTies(m: GameMap, s: Session) {
    forall a, b :: Meets(m, s, a) && Meets(m, s, b) && a != b && Touch(a, b) ==> a.time != b.time
  }

  /** All meetings of the session, each once, in order of time. */
  ghost predicate IsSchedule(m: GameMap, s: Session, es: seq<Meeting>) {
    && (forall i, j :: 0 <= i < j < |es| ==> es[i].time <= es[j].time && es[i] != es[j])
    && (forall e :: e in es <==> Meets(m, s, e))
  }

  function HitsAt(es: seq<Meeting>): seq<Hit> { seq(|es|, i requires 0 <= i < |es| => HitAt(es[i])) }

  function MeetingOf(dogIds: seq<nat>, lootIds: seq<nat>, e: GatheringEvent): Meeting
    requires e.gathererId < |dogIds|
  {
    Meeting(dogIds[e.gathererId], if e.itemId < |lootIds|
        then AtLoot(lootIds[e.itemId]) else AtOffice(e.itemId - |lootIds|), e.time)
  }

  function MeetingsOf(dogIds: seq<nat>, lootIds: seq<nat>, events: seq<GatheringEvent>): seq<Meeting>
    requires forall k :: 0 <= k < |events| ==> events[k].gathererId < |dogIds|
  {
    seq(|events|, k requires 0 <= k < |events| => MeetingOf(dogIds, lootIds, events[k]))
  }

  lemma ItemsAt(m: GameMap, s: Session, lootIds: seq<nat>, i: nat)
    requires Enumerates(lootIds, s.lost) && i < |Items(s.lost, lootIds, m.offices)|
    ensures var p := if i < |lootIds| then AtLoot(lootIds[i]) else AtOffice(i - |lootIds|);
            HasPlace(m, s, p) && Items(s.lost, lootIds, m.offices)[i] == ItemAt(m, s, p)
  {
    if i < |lootIds| {
      assert lootIds[i] in lootIds;
    }
  }

  lemma PlaceHasIndex(m: GameMap, s: Session, lootIds: seq<nat>, p: Place) returns (i: nat)
    requires Enumerates(lootIds, s.lost) && HasPlace(m, s, p)
    ensures i < |Items(s.lost, lootIds, m.offices)| && Items(s.lost, lootIds, m.offices)[i] == ItemAt(m, s, p)
    ensures p == if i < |lootIds| then AtLoot(lootIds[i]) else AtOffice(i - |lootIds|)
  {
    match p {
      case AtLoot(id) =>
        assert id in lootIds;
        i :| i < |lootIds| && lootIds[i] == id;
      case AtOffice(n) =>
        i := |lootIds| + n;
    }
  }

  lemma EventMeets(m: GameMap, s: Session, dogIds: seq<nat>, lootIds: seq<nat>, e: GatheringEvent)
    requires Enumerates(dogIds, s.dogs) && Enumerates(lootIds, s.lost)
    requires IsEvent(Items(s.lost, lootIds, m.offices), Gatherers(s.dogs, dogIds), e)
    ensures e.gathererId < |dogIds| && Meets(m, s, MeetingOf(dogIds, lootIds, e))
    ensures HitAt(MeetingOf(dogIds, lootIds, e)) == HitOf(dogIds, lootIds, e)
  {
    hide Collects, TryCollectPoint, Items, Meets;
    ItemsAt(m, s, lootIds, e.itemId);
    assert dogIds[e.gathererId] in dogIds;
    MeetsIff(m, s, MeetingOf(dogIds, lootIds, e));
  }

  lemma MeetingHasEvent(m: GameMap, s: Session, dogIds: seq<nat>, lootIds: seq<nat>, x: Meeting)
    returns (e: GatheringEvent)
    requires Enumerates(dogIds, s.dogs) && Enumerates(lootIds, s.lost) && Meets(m, s, x)
    ensures IsEvent(Items(s.lost, lootIds, m.offices), Gatherers(s.dogs, dogIds), e)
    ensures e.gathererId < |dogIds| && MeetingOf(dogIds, lootIds, e) == x
  {
    hide TryCollectPoint, CollectionResult.IsCollected, Items, Meets;
    MeetsIff(m, s, x);
    var i := PlaceHasIndex(m, s, lootIds, x.place);
    assert x.dog in dogIds;
    var g: nat :| g < |dogIds| && dogIds[g] == x.dog;
    e := EventOf(Items(s.lost, lootIds, m.offices), Gatherers(s.dogs, dogIds), g, i);
  }

  lemma DifferentEvents(dogIds: seq<nat>, lootIds: seq<nat>, e: GatheringEvent, f: GatheringEvent)
    requires e.gathererId < |dogIds| && f.gathererId < |dogIds|
    requires forall i, j :: 0 <= i < j < |dogIds| ==> dogIds[i] != dogIds[j]
    requires forall i, j :: 0 <= i < j < |lootIds| ==> lootIds[i] != lootIds[j]
    requires !(e.itemId == f.itemId && e.gathererId == f.gathererId)
    ensures MeetingOf(dogIds, lootIds, e) != MeetingOf(dogIds, lootIds, f)
  {
  }

  /** Whatever the order of containers, the events of a session are a schedule of its meetings. */
  lemma EventsAreSchedule(m: GameMap, s: Session, hits: seq<Hit>, dogIds: seq<nat>, lootIds: seq<nat>,
      events: seq<GatheringEvent>)
    requires HitsFrom(m, s, hits, dogIds, lootIds, events)
    ensures var es := MeetingsOf(dogIds, lootIds, events); IsSchedule(m, s, es) && HitsAt(es) == hits
  {
    hide IsEvent, Meets, Items, Gatherers, MeetingOf, HitAt, HitOf;
    var es := MeetingsOf(dogIds, lootIds, events);
    var items, gatherers := Items(s.lost, lootIds, m.offices), Gatherers(s.dogs, dogIds);
    forall k | 0 <= k < |events| ensures Meets(m, s, es[k]) && HitAt(es[k]) == hits[k] && es[k].time == events[k].time {
      assert events[k] in events;
      EventMeets(m, s, dogIds, lootIds, events[k]);
      TimeOf(dogIds, lootIds, events[k]);
    }
    forall i, j | 0 <= i < j < |es| ensures es[i].time <= es[j].time && es[i] != es[j] {
      DifferentEvents(dogIds, lootIds, events[i], events[j]);
    }
    forall x | Meets(m, s, x) ensures x in es {
      var e := MeetingHasEvent(m, s, dogIds, lootIds, x);
      assert e in events;
      var k: nat :| k < |events| && events[k] == e;
      assert es[k] == x;
    }
    assert HitsAt(es) == hits;
  }

  lemma TimeOf(dogIds: seq<nat>, lootIds: seq<nat>, e: GatheringEvent)
    requires e.gathererId < |dogIds|
    ensures MeetingOf(dogIds, lootIds, e).time == e.time
  {
  }

  lemma ScheduleOf(m: GameMap, s: Session, hits: seq<Hit>) returns (es: seq<Meeting>)
    requires AreHits(m, s, hits)
    ensures IsSchedule(m, s, es) && HitsAt(es) == hits
  {
    hide HitsFrom, IsSchedule, HitsAt;
    var dogIds: seq<nat>, lootIds: seq<nat>,
        events: seq<GatheringEvent> :| HitsFrom(m, s, hits, dogIds, lootIds, events);
    EventsAreSchedule(m, s, hits, dogIds, lootIds, events);
    FromEvents(m, s, hits, dogIds, lootIds, events);
    es := MeetingsOf(dogIds, lootIds, events);
  }

  lemma FromEvents(m: GameMap, s: Session, hits: seq<Hit>, dogIds: seq<nat>, lootIds: seq<nat>,
      events: seq<GatheringEvent>)
    requires HitsFrom(m, s, hits, dogIds, lootIds, events)
    ensures forall k :: 0 <= k < |events| ==> events[k].gathererId < |dogIds|
  {
  }

  // ---------------------------------------------------------------------------------------------
  // Two schedules of the same meetings

  /** In order of time, each once. */
  ghost predicate InOrder(es: seq<Meeting>) {
    forall i, j :: 0 <= i < j < |es| ==> es[i].time <= es[j].time && es[i] != es[j]
  }

  ghost predicate SameMembers(a: seq<Meeting>, b: seq<Meeting>) { forall e :: e in a <==> e in b }

  /** Of the members, those that touch are at different times. */
  ghost predicate TouchAtDifferentTimes(a: seq<Meeting>) {
    forall i, j :: 0 <= i < |a| && 0 <= j < |a| && a[i] != a[j] && Touch(a[i], a[j]) ==> a[i].time != a[j].time
  }

  lemma LastIsApart(a: seq<Meeting>, b: seq<Meeting>) returns (p: nat)
    requires a != [] && InOrder(a) && InOrder(b) && SameMembers(a, b) && TouchAtDifferentTimes(a)
    ensures p < |b| && b[p] == a[|a| - 1]
    ensures forall q :: p < q < |b| ==> !Touch(b[p], b[q])
  {
    hide Touch;
    var x := a[|a| - 1];
    assert x in a;
    p :| p < |b| && b[p] == x;
    forall q | p < q < |b| ensures !Touch(b[p], b[q]) {
      assert b[q] in b;
      var i: nat :| i < |a| && a[i] == b[q];
      assert b[p].time <= b[q].time && b[p] != b[q];
    }
  }

  lemma FrontsAgree(a: seq<Meeting>, b: seq<Meeting>, p: nat)
    requires a != [] && InOrder(a) && InOrder(b) && SameMembers(a, b) && TouchAtDifferentTimes(a)
    requires p < |b| && b[p] == a[|a| - 1]
    ensures var front := a[..|a| - 1];
            && InOrder(front) && InOrder(Without(b, p)) && SameMembers(front, Without(b, p))
            && TouchAtDifferentTimes(front)
  {
    hide Touch;
    var front, rest := a[..|a| - 1], Without(b, p);
    forall e ensures e in front <==> e in rest {
      OneLess(a, |a| - 1, e);
      OneLess(b, p, e);
      assert Without(a, |a| - 1) == front;
    }
  }

  lemma OneLess(a: seq<Meeting>, p: nat, e: Meeting)
    requires InOrder(a) && p < |a|
    ensures e in Without(a, p) <==> e in a && e != a[p]
  {
    if e in a && e != a[p] {
      var i: nat :| i < |a| && a[i] == e;
      assert Without(a, p)[if i < p then i else i - 1] == e;
    }
  }

  lemma HitsWithout(b: seq<Meeting>, p: nat)
    requires p < |b|
    ensures Without(HitsAt(b), p) == HitsAt(Without(b, p))
  {
  }

  lemma {:induction false} SameSchedule(values: seq<nat>, s: Session, a: seq<Meeting>, b: seq<Meeting>)
    requires InOrder(a) && InOrder(b) && SameMembers(a, b) && TouchAtDifferentTimes(a)
    requires DogsPresent(s, HitsAt(a)) && DogsPresent(s, HitsAt(b))
    ensures SameOutcome(Replay(values, s, HitsAt(b)), Replay(values, s, HitsAt(a)))
    decreases |a|
  {
    hide Replay, SameOutcome, InOrder, TouchAtDifferentTimes, Touch, Then;
    if a == [] {
      NoneInEither(a, b);
      assert HitsAt(a) == HitsAt(b);
      SameAsItself(Replay(values, s, HitsAt(b)));
    } else {
      var p := LastIsApart(a, b);
      var front, rest, x := a[..|a| - 1], Without(b, p), HitAt(a[|a| - 1]);
      FrontsAgree(a, b, p);
      HitsWithout(b, p);
      ApartFromLater(b, p);
      MayComeLast(values, s, HitsAt(b), p);
      assert HitsAt(a) == HitsAt(front) + [x];
      ReplayParts(values, s, HitsAt(front), HitsAt(rest), x);
      SameSchedule(values, s, front, rest);
      SameThen(values, Replay(values, s, HitsAt(rest)), Replay(values, s, HitsAt(front)), x);
      SameChain(Replay(values, s, HitsAt(b)), Replay(values, s, HitsAt(rest) + [x]), Replay(values, s, HitsAt(a)));
    }
  }

  lemma FirstIsMember(es: seq<Meeting>)
    requires es != []
    ensures es[0] in es
  {
  }

  lemma NoneInEither(a: seq<Meeting>, b: seq<Meeting>)
    requires a == [] && SameMembers(a, b)
    ensures b == []
  {
    if b != [] {
      FirstIsMember(b);
    }
  }

  lemma ApartFromLater(b: seq<Meeting>, p: nat)
    requires p < |b| && forall q :: p < q < |b| ==> !Touch(b[p], b[q])
    ensures forall q :: p < q < |HitsAt(b)| ==> Apart(HitsAt(b)[p], HitsAt(b)[q])
  {
  }

  lemma ReplayParts(values: seq<nat>, s: Session, front: seq<Hit>, rest: seq<Hit>, x: Hit)
    requires DogsPresent(s, front + [x]) && DogsPresent(s, rest + [x])
    ensures DogsPresent(s, front) && DogsPresent(s, rest)
    ensures Has(Replay(values, s, front), x.dog) && Has(Replay(values, s, rest), x.dog)
    ensures Replay(values, s, front + [x]) == Then(values, Replay(values, s, front), x)
    ensures Replay(values, s, rest + [x]) == Then(values, Replay(values, s, rest), x)
  {
    hide Then;
    assert (front + [x])[|front|] == x;
    forall k | 0 <= k < |front| ensures front[k].dog in s.dogs {
      assert (front + [x])[k] == front[k];
    }
    forall k | 0 <= k < |rest| ensures rest[k].dog in s.dogs {
      assert (rest + [x])[k] == rest[k];
    }
    ReplayOneMore(values, s, front, x);
    ReplayOneMore(values, s, rest, x);
  }

  /** Whatever the order of the containers and of the events of one moment: the gather events of a session have one
      outcome, if no dog and no object takes part in two of them at once. */
  lemma OrderMakesNoDifference(m: GameMap, s: Session, hits: seq<Hit>, others: seq<Hit>)
    requires AreHits(m, s, hits) && AreHits(m, s, others) && NoTies(m, s)
    ensures DogsPresent(s, hits) && DogsPresent(s, others)
    ensures SameOutcome(Replay(m.lootValues, s, others), Replay(m.lootValues, s, hits))
  {
    HitsArePresent(m, s, hits);
    HitsArePresent(m, s, others);
    hide AreHits, Replay, SameOutcome, Meets, Touch;
    var a := ScheduleOf(m, s, hits);
    var b := ScheduleOf(m, s, others);
    forall i, j | 0 <= i < |a| && 0 <= j < |a| && a[i] != a[j] && Touch(a[i], a[j]) ensures a[i].time != a[j].time {
      assert a[i] in a && a[j] in a;
    }
    SameSchedule(m.lootValues, s, a, b);
  }

  /** So a tick of a session has one outcome. */
  lemma TickIsDetermined(m: GameMap, s: Session, deltaMs: nat, hits: seq<Hit>, others: seq<Hit>)
    requires AreHits(m, Moved(m, s, deltaMs), hits) && AreHits(m, Moved(m, s, deltaMs), others)
    requires NoTies(m, Moved(m, s, deltaMs))
    ensures DogsPresent(Moved(m, s, deltaMs), hits) && DogsPresent(Moved(m, s, deltaMs), others)
    ensures SameOutcome(AfterTick(m, s, deltaMs, others), AfterTick(m, s, deltaMs, hits))
  {
    hide AreHits, Replay, NoTies, Moved;
    OrderMakesNoDifference(m, Moved(m, s, deltaMs), hits, others);
  }
}
