/**
  One game session as a value: its dogs, its lost objects, and what a tick, a new dog, new loot or a
  retirement does to them.  The history of the objects is kept alongside, so that nothing can get lost unseen.
 */
module SessionModel {
  import opened Wrappers
  import opened Geometry
  import opened RoadMap
  import opened Dogs
  import opened Sums
  import opened CollisionDetector

  const BASE_WIDTH := 0.5

  /** All objects that ever appeared, the objects exchanged for score, and the dogs that left. */
  datatype History = History(generated: seq<Loot>, cashed: seq<Loot>, retired: map<nat, DogState>)

  datatype Session = Session(dogs: map<nat, DogState>, lost: map<nat, Loot>, history: History)

  const EMPTY_SESSION := Session(map[], map[], History([], [], map[]))

  /** The session goes on, or an access through an empty bag slot ends the program. */
  datatype Outcome = Fault | Fine(s: Session)

  // ---------------------------------------------------------------------------------------------
  // Gathering

  /** A dog passes a lost object, or an office. */
  datatype Hit = LootHit(dog: nat, loot: nat) | OfficeHit(dog: nat)

  function Objects(bag: Bag): seq<Loot> {
    if bag == [] then []
    else Objects(bag[..|bag| - 1]) + match bag[|bag| - 1] case Some(l) => [l] case None => []
  }

  function Lookup(lost: map<nat, Loot>, id: nat): Option<Loot> {
    if id in lost then Some(lost[id]) else None
  }

  /** The dog takes what is left under the object's id, if it has room. */
  function AfterCollect(s: Session, dog: nat, loot: nat): Session
    requires dog in s.dogs
  {
    if IsFullBag(s.dogs[dog]) then s
    else s.(dogs := s.dogs[dog := Collected(s.dogs[dog], Lookup(s.lost, loot))], lost := s.lost - {loot})
  }

  /** The dog exchanges its bag for score. */
  function AfterDrop(values: seq<nat>, s: Session, dog: nat): Outcome
    requires dog in s.dogs
  {
    var d := s.dogs[dog];
    if d.bag == [] then Fine(s)
    else if !Sound(d.bag, values) then Fault
    else Fine(s.(dogs := s.dogs[dog := Dropped(d, values)],
                 history := s.history.(cashed := s.history.cashed + Objects(d.bag))))
  }

  function AfterHit(values: seq<nat>, s: Session, h: Hit): Outcome
    requires h.dog in s.dogs
  {
    match h
    case LootHit(dog, loot) => Fine(AfterCollect(s, dog, loot))
    case OfficeHit(dog) => AfterDrop(values, s, dog)
  }

  ghost predicate DogsPresent(s: Session, hits: seq<Hit>) {
    forall k :: 0 <= k < |hits| ==> hits[k].dog in s.dogs
  }

  /** The hits, one after the other. */
  function Replay(values: seq<nat>, s: Session, hits: seq<Hit>): (o: Outcome)
    requires DogsPresent(s, hits)
    ensures o.Fine? ==> o.s.dogs.Keys == s.dogs.Keys
  {
    if hits == [] then Fine(s)
    else
      match Replay(values, s, hits[..|hits| - 1])
      case Fault => Fault
      case Fine(t) => AfterHit(values, t, hits[|hits| - 1])
  }

  lemma NothingReplayed(values: seq<nat>, s: Session)
    ensures Replay(values, s, []) == Fine(s)
  {
  }

  lemma ReplayNext(values: seq<nat>, s: Session, hits: seq<Hit>, k: nat, t: Session)
    requires DogsPresent(s, hits) && k < |hits| && Replay(values, s, hits[..k]) == Fine(t)
    ensures hits[k].dog in t.dogs && Replay(values, s, hits[..k + 1]) == AfterHit(values, t, hits[k])
  {
    assert hits[..k + 1][..k] == hits[..k];
  }

  function MovedDogs(roads: seq<Road>, dogs: map<nat, DogState>, deltaMs: nat): map<nat, DogState> {
    map id | id in dogs :: Advanced(roads, dogs[id], deltaMs)
  }

  function Moved(m: GameMap, s: Session, deltaMs: nat): Session {
    s.(dogs := MovedDogs(m.roads, s.dogs, deltaMs))
  }

  // ---------------------------------------------------------------------------------------------
  // The hits of a tick

  function LootItem(l: Loot): Item { Item(l.position, LOOT_WIDTH) }

  function OfficeItem(o: Office): Item { Item(o.position, BASE_WIDTH) }

  /** Each key of the map exactly once. */
  ghost predicate Enumerates<T>(ids: seq<nat>, m: map<nat, T>) {
    && (forall id :: id in ids <==> id in m)
    && (forall i, j :: 0 <= i < j < |ids| ==> ids[i] != ids[j])
  }

  function Gatherers(dogs: map<nat, DogState>, dogIds: seq<nat>): seq<Gatherer>
    requires forall id :: id in dogIds ==> id in dogs
  {
    seq(|dogIds|, i requires 0 <= i < |dogIds| => dogs[dogIds[i]].gatherer)
  }

  /** Lost objects first, then the offices. */
  function Items(lost: map<nat, Loot>, lootIds: seq<nat>, offices: seq<Office>): seq<Item>
    requires forall id :: id in lootIds ==> id in lost
  {
    seq(|lootIds|, i requires 0 <= i < |lootIds| => LootItem(lost[lootIds[i]]))
    + seq(|offices|, i requires 0 <= i < |offices| => OfficeItem(offices[i]))
  }

  function HitOf(dogIds: seq<nat>, lootIds: seq<nat>, e: GatheringEvent): Hit
    requires e.gathererId < |dogIds|
  {
    if e.itemId < |lootIds| then LootHit(dogIds[e.gathererId], lootIds[e.itemId]) else OfficeHit(dogIds[e.gathererId])
  }

  /** The hits are the gather events of the session in some time order. */
  ghost predicate HitsFrom(m: GameMap, s: Session, hits: seq<Hit>, dogIds: seq<nat>, lootIds: seq<nat>,
      events: seq<GatheringEvent>) {
    && Enumerates(dogIds, s.dogs) && Enumerates(lootIds, s.lost)
    && IsTimeline(Items(s.lost, lootIds, m.offices), Gatherers(s.dogs, dogIds), events)
    && |hits| == |events|
    && (forall k :: 0 <= k < |events| ==>
      events[k].gathererId < |dogIds| && hits[k] == HitOf(dogIds, lootIds, events[k]))
  }

  ghost predicate AreHits(m: GameMap, s: Session, hits: seq<Hit>) {
    exists dogIds: seq<nat>, lootIds: seq<nat>, events: seq<GatheringEvent> ::
        HitsFrom(m, s, hits, dogIds, lootIds, events)
  }

  // ---------------------------------------------------------------------------------------------
  // The other operations

  function AfterAddDog(s: Session, d: DogState): Session { s.(dogs := s.dogs[d.id := d]) }

  function AfterAddLoot(s: Session, l: Loot): Session {
    s.(lost := s.lost[l.id := l], history := s.history.(generated := s.history.generated + [l]))
  }

  function AfterAddLoots(s: Session, ls: seq<Loot>): Session {
    if ls == [] then s else AfterAddLoot(AfterAddLoots(s, ls[..|ls| - 1]), ls[|ls| - 1])
  }

  function AfterRemoveDog(s: Session, dog: nat): Session {
    if dog in s.dogs
    then s.(dogs := s.dogs - {dog}, history := s.history.(retired := s.history.retired[dog := s.dogs[dog]]))
    else s
  }

  // ---------------------------------------------------------------------------------------------
  // What the session keeps

  ghost predicate LootKnown(l: Loot, values: seq<nat>) { l.lootType < |values| }

  ghost predicate BagKnown(bag: Bag, values: seq<nat>) {
    forall i :: 0 <= i < |bag| && bag[i].Some? ==> LootKnown(bag[i].value, values)
  }

  ghost predicate DogInv(m: GameMap, d: DogState) {
    && |d.bag| <= d.bagCapacity
    && BagKnown(d.bag, m.lootValues)
    && ValidDirection(d.direction)
    && AxisAligned(d.speed)
    && ClocksOrdered(d)
    && d.gatherer.width == DOG_WIDTH
  }

  ghost predicate SessionInv(m: GameMap, s: Session) {
    && (forall id :: id in s.dogs ==> s.dogs[id].id == id && DogInv(m, s.dogs[id]))
    && (forall id :: id in s.lost ==> s.lost[id].id == id && LootKnown(s.lost[id], m.lootValues))
    && s.history.retired.Keys !! s.dogs.Keys
  }

  ghost predicate NoPhantom(bag: Bag) {
    forall i :: 0 <= i < |bag| ==> bag[i].Some?
  }

  ghost predicate NoPhantoms(s: Session) {
    forall id :: id in s.dogs ==> NoPhantom(s.dogs[id].bag)
  }
}
