/** Dogs and loot to and from their saved form, object by object. */
module DogFiles {
  import opened Wrappers
  import opened Dogs
  import opened SessionModel
  import opened Serialization

  /** The objects of a bag; None is the access through an empty slot. */
  method SerializeLoot(bag: Bag) returns (r: Option<seq<LootRepr>>)
    ensures r.Some? <==> NoPhantom(bag)
    ensures r.Some? ==> r.value == SaveBag(bag)
  {
    var saved: seq<LootRepr> := [];
    for i := 0 to |bag|
      invariant |saved| == i && forall j :: 0 <= j < i ==> bag[j].Some? && saved[j] == SaveLoot(bag[j].value)
    {
      if bag[i].None? {
        return None;
      }
      saved := saved + [SaveLoot(bag[i].value)];
    }
    r := Some(saved);
  }

  method Save(dog: Dog) returns (r: Option<DogRepr>)
    ensures r == SaveDog(dog.State())
  {
    var bag := SerializeLoot(dog.bag);
    r := match bag
      case None => None
      case Some(b) => Some(DogRepr(dog.id, dog.name, dog.position, dog.bagCapacity, dog.speed, dog.direction,
          dog.score, b));
  }

  /** A new dog is set up through its setters; an unknown direction is an error. */
  method Restore(r: DogRepr, ghost home: string) returns (res: Result<Dog, RestoreError>)
    ensures match RestoreDog(r)
            case Err(e) => res == Err(e)
            case Ok(d) => res.Ok? && fresh(res.value) && res.value.home == home && res.value.State() == d
  {
    var dog := new Dog(r.id, r.name, r.position, r.bagCapacity, home);
    dog.SetSpeed(r.speed);
    var ok := dog.SetDirection(r.direction);
    if !ok {
      return Err(InvalidDirection);
    }
    dog.AddScore(r.score);
    ghost var d := dog.State();
    for i := 0 to |r.bag|
      invariant fresh(dog) && dog.home == home && dog.State() == CollectAll(d, r.bag[..i])
    {
      dog.CollectLostObject(Some(RestoreLoot(r.bag[i])));
      assert r.bag[..i + 1][..i] == r.bag[..i];
    }
    assert r.bag[..|r.bag|] == r.bag;
    res := Ok(dog);
  }

  /** The lost objects of a session, each once. */
  method SerializeLostObjects(lost: map<nat, Loot>) returns (rs: seq<LootRepr>)
    requires forall id :: id in lost ==> lost[id].id == id
    ensures LostList(rs, lost)
  {
    rs := [];
    ghost var ids: seq<nat> := [];
    var todo := lost.Keys;
    while todo != {}
      invariant todo <= lost.Keys && |ids| == |rs|
      invariant forall id :: id in ids <==> id in lost && id !in todo
      invariant forall i, j :: 0 <= i < j < |ids| ==> ids[i] != ids[j]
      invariant forall i :: 0 <= i < |rs| ==> ids[i] in lost && rs[i] == SaveLoot(lost[ids[i]])
      decreases todo
    {
      var id :| id in todo;
      assert forall i :: 0 <= i < |ids| ==> ids[i] in ids;
      rs, ids := rs + [SaveLoot(lost[id])], ids + [id];
      todo := todo - {id};
    }
    assert ids == seq(|rs|, i requires 0 <= i < |rs| => rs[i].id);
  }
}
