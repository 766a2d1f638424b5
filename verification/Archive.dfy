/**
  The file of a saved game: a flat list of fields in the order in which the parts are written.  Reading is the
  inverse of writing, and a file that ends too early cannot be read at all.
 */
module Archive {
  import opened Wrappers
  import opened Geometry
  import opened Registry
  import opened Serialization

  datatype Field = Num(n: nat) | Real(x: real) | Text(s: string)

  type File = seq<Field>

  /** What was read, and what is left of the file. */
  type Parsed<T> = Option<(T, File)>

  // ---------------------------------------------------------------------------------------------
  // Lists

  function ListFields<T>(enc: T -> File, xs: seq<T>): File {
    if xs == [] then [] else enc(xs[0]) + ListFields(enc, xs[1..])
  }

  function ParseList<T>(parse: File -> Parsed<T>, n: nat, file: File): Parsed<seq<T>> {
    if n == 0 then Some(([], file))
    else
      match parse(file)
      case None => None
      case Some((x, rest)) =>
        match ParseList(parse, n - 1, rest)
        case None => None
        case Some((xs, end)) => Some(([x] + xs, end))
  }

  /** A list is preceded by its length. */
  function CountedFields<T>(enc: T -> File, xs: seq<T>): File { [Num(|xs|)] + ListFields(enc, xs) }

  function ParseCounted<T>(parse: File -> Parsed<T>, file: File): Parsed<seq<T>> {
    if file == [] || !file[0].Num? then None else ParseList(parse, file[0].n, file[1..])
  }

  /** Reading gives back what was written, and leaves what follows. */
  ghost predicate Inverts<T(!new)>(enc: T -> File, parse: File -> Parsed<T>) {
    forall x: T, rest: File :: parse(enc(x) + rest) == Some((x, rest))
  }

  /** What can be read from a file can be read from a longer one. */
  ghost predicate Prolongs<T(!new)>(parse: File -> Parsed<T>) {
    forall file: File, more: File :: ProlongsAt(parse, file, more)
  }

  ghost predicate ProlongsAt<T(!new)>(parse: File -> Parsed<T>, file: File, more: File) {
    parse(file).Some? ==> parse(file + more) == Some((parse(file).value.0, parse(file).value.1 + more))
  }

  lemma {:induction false} ListInverts<T(!new)>(enc: T -> File, parse: File -> Parsed<T>, xs: seq<T>, rest: File)
    requires Inverts(enc, parse)
    ensures ParseList(parse, |xs|, ListFields(enc, xs) + rest) == Some((xs, rest))
  {
    if xs == [] {
      assert ListFields(enc, xs) + rest == rest;
    } else {
      ListInverts(enc, parse, xs[1..], rest);
      assert ListFields(enc, xs) + rest == enc(xs[0]) + (ListFields(enc, xs[1..]) + rest);
      assert xs == [xs[0]] + xs[1..];
    }
  }

  lemma CountedInverts<T(!new)>(enc: T -> File, parse: File -> Parsed<T>, xs: seq<T>, rest: File)
    requires Inverts(enc, parse)
    ensures ParseCounted(parse, CountedFields(enc, xs) + rest) == Some((xs, rest))
  {
    ListInverts(enc, parse, xs, rest);
    assert (CountedFields(enc, xs) + rest)[1..] == ListFields(enc, xs) + rest;
  }

  lemma {:induction false} ListProlongs<T(!new)>(parse: File -> Parsed<T>, n: nat, file: File, more: File)
    requires Prolongs(parse)
    ensures ParseList(parse, n, file).Some? ==>
              ParseList(parse, n, file + more) ==
              Some((ParseList(parse, n, file).value.0, ParseList(parse, n, file).value.1 + more))
  {
    if n > 0 && parse(file).Some? {
      assert ProlongsAt(parse, file, more);
      ListProlongs(parse, n - 1, parse(file).value.1, more);
    }
  }

  lemma CountedProlongs<T(!new)>(parse: File -> Parsed<T>, file: File, more: File)
    requires Prolongs(parse)
    ensures ParseCounted(parse, file).Some? ==>
              ParseCounted(parse, file + more) ==
              Some((ParseCounted(parse, file).value.0, ParseCounted(parse, file).value.1 + more))
  {
    if file != [] && file[0].Num? {
      ListProlongs(parse, file[0].n, file[1..], more);
      assert (file + more)[1..] == file[1..] + more;
    }
  }

  // ---------------------------------------------------------------------------------------------
  // Maps: lists of pairs in ascending order of keys

  predicate IsLeast(m: nat, s: set<nat>) { m in s && forall j :: j in s ==> m <= j }

  lemma {:induction false} LeastExists(s: set<nat>)
    requires s != {}
    ensures exists m: nat :: IsLeast(m, s)
    decreases |s|
  {
    var k :| k in s;
    if s == {k} {
      assert IsLeast(k, s);
    } else {
      LeastExists(s - {k});
      var l: nat :| IsLeast(l, s - {k});
      assert forall j :: j in s ==> j == k || j in s - {k};
      assert IsLeast(if k < l then k else l, s);
    }
  }

  function Least(s: set<nat>): (m: nat)
    requires s != {}
    ensures IsLeast(m, s)
  {
    LeastExists(s);
    var m: nat :| m in s && IsLeast(m, s);
    m
  }

  function Ascending(s: set<nat>): (keys: seq<nat>)
    ensures forall k :: k in keys <==> k in s
    ensures forall i, j :: 0 <= i < j < |keys| ==> keys[i] < keys[j]
    decreases |s|
  {
    if s == {} then [] else [Least(s)] + Ascending(s - {Least(s)})
  }

  function Pairs<V>(m: map<nat, V>): seq<(nat, V)> {
    var keys := Ascending(m.Keys);
    seq(|keys|, i requires 0 <= i < |keys| => assert keys[i] in keys; (keys[i], m[keys[i]]))
  }

  /** Pairs are inserted one by one; the first one for a key stays. */
  function MapOf<V>(pairs: seq<(nat, V)>): map<nat, V> {
    if pairs == [] then map[]
    else Emplace(MapOf(pairs[..|pairs| - 1]), pairs[|pairs| - 1].0, pairs[|pairs| - 1].1)
  }

  lemma {:induction false} MapOfSome<V>(m: map<nat, V>, pairs: seq<(nat, V)>)
    requires forall i :: 0 <= i < |pairs| ==> pairs[i].0 in m && m[pairs[i].0] == pairs[i].1
    ensures MapOf(pairs) == map k | k in m && exists i :: 0 <= i < |pairs| && pairs[i].0 == k :: m[k]
  {
    if pairs != [] {
      var front := pairs[..|pairs| - 1];
      MapOfSome(m, front);
      assert forall i :: 0 <= i < |front| ==> front[i] == pairs[i];
    }
  }

  lemma PairsAreEntries<V>(m: map<nat, V>)
    ensures forall i :: 0 <= i < |Pairs(m)| ==> Pairs(m)[i].0 in m && m[Pairs(m)[i].0] == Pairs(m)[i].1
  {
    forall i | 0 <= i < |Pairs(m)| ensures Pairs(m)[i].0 in m && m[Pairs(m)[i].0] == Pairs(m)[i].1 {
      assert Ascending(m.Keys)[i] in Ascending(m.Keys);
    }
  }

  lemma EntryHasPair<V>(m: map<nat, V>, k: nat) returns (i: nat)
    requires k in m
    ensures i < |Pairs(m)| && Pairs(m)[i].0 == k
  {
    assert k in Ascending(m.Keys);
    i :| i < |Ascending(m.Keys)| && Ascending(m.Keys)[i] == k;
  }

  lemma MapOfPairs<V>(m: map<nat, V>)
    ensures MapOf(Pairs(m)) == m
  {
    hide Pairs, MapOf;
    PairsAreEntries(m);
    MapOfSome(m, Pairs(m));
    forall k | k in m ensures exists i :: 0 <= i < |Pairs(m)| && Pairs(m)[i].0 == k {
      var i := EntryHasPair(m, k);
    }
  }

  // ---------------------------------------------------------------------------------------------
  // The parts of a saved game

  function LootFields(r: LootRepr): File { [Num(r.id), Num(r.lootType), Real(r.position.x), Real(r.position.y)] }

  function ParseLoot(file: File): Parsed<LootRepr> {
    if |file| >= 4 && file[0].Num? && file[1].Num? && file[2].Real? && file[3].Real?
    then Some((LootRepr(file[0].n, Vec(file[2].x, file[3].x), file[1].n), file[4..])) else None
  }

  function DogFields(r: DogRepr): File {
    [Num(r.id), Text(r.name), Real(r.position.x), Real(r.position.y), Num(r.bagCapacity),
     Real(r.speed.x), Real(r.speed.y), Text(r.direction), Num(r.score)] + CountedFields(LootFields, r.bag)
  }

  predicate StartsLikeDog(file: File) {
    && |file| >= 9
    && file[0].Num? && file[1].Text? && file[2].Real? && file[3].Real? && file[4].Num?
    && file[5].Real? && file[6].Real? && file[7].Text? && file[8].Num?
  }

  function ParseDog(file: File): Parsed<DogRepr> {
    if !StartsLikeDog(file) then None
    else
      match ParseCounted(ParseLoot, file[9..])
      case None => None
      case Some((bag, rest)) =>
        Some((DogRepr(file[0].n, file[1].s, Vec(file[2].x, file[3].x), file[4].n,
                      Vec(file[5].x, file[6].x), file[7].s, file[8].n, bag), rest))
  }

  function PlayerFields(r: PlayerRepr): File { [Num(r.id), Text(r.name), Text(r.mapId)] + DogFields(r.dog) }

  function ParsePlayer(file: File): Parsed<PlayerRepr> {
    if |file| < 3 || !file[0].Num? || !file[1].Text? || !file[2].Text? then None
    else
      match ParseDog(file[3..])
      case None => None
      case Some((dog, rest)) => Some((PlayerRepr(file[0].n, file[1].s, file[2].s, dog), rest))
  }

  function PlayerEntry(e: (nat, PlayerRepr)): File { [Num(e.0)] + PlayerFields(e.1) }

  function ParsePlayerEntry(file: File): Parsed<(nat, PlayerRepr)> {
    if file == [] || !file[0].Num? then None
    else
      match ParsePlayer(file[1..])
      case None => None
      case Some((player, rest)) => Some(((file[0].n, player), rest))
  }

  function TokenEntry(e: (nat, Token)): File { [Num(e.0), Text(e.1)] }

  function ParseTokenEntry(file: File): Parsed<(nat, Token)> {
    if |file| >= 2 && file[0].Num? && file[1].Text? then Some(((file[0].n, file[1].s), file[2..])) else None
  }

  function SessionFields(r: SessionRepr): File { [Text(r.mapId)] + CountedFields(LootFields, r.lost) }

  function ParseSession(file: File): Parsed<SessionRepr> {
    if file == [] || !file[0].Text? then None
    else
      match ParseCounted(ParseLoot, file[1..])
      case None => None
      case Some((lost, rest)) => Some((SessionRepr(file[0].s, lost), rest))
  }

  /** Players, tokens, sessions. */
  function GameFields(r: GameRepr): File {
    CountedFields(PlayerEntry, Pairs(r.tokens.players))
    + (CountedFields(TokenEntry, Pairs(r.tokens.tokens))
       + CountedFields(SessionFields, r.sessions))
  }

  function ParseGame(file: File): Parsed<GameRepr> {
    match ParseCounted(ParsePlayerEntry, file)
    case None => None
    case Some((players, rest)) =>
      match ParseCounted(ParseTokenEntry, rest)
      case None => None
      case Some((tokens, rest2)) =>
        match ParseCounted(ParseSession, rest2)
        case None => None
        case Some((sessions, end)) => Some((GameRepr(TokensRepr(MapOf(players), MapOf(tokens)), sessions), end))
  }

  /** What is read of a file; None is the archive's exception. */
  function Read(file: File): Option<GameRepr> {
    match ParseGame(file) case None => None case Some((r, _)) => Some(r)
  }

  lemma LootInverts()
    ensures Inverts(LootFields, ParseLoot) && Prolongs(ParseLoot)
  {
    forall file: File, more: File ensures ProlongsAt(ParseLoot, file, more) {
      if |file| >= 4 {
        assert (file + more)[4..] == file[4..] + more;
      }
    }
    forall x: LootRepr, rest: File ensures ParseLoot(LootFields(x) + rest) == Some((x, rest)) {
      assert (LootFields(x) + rest)[4..] == rest;
    }
  }

  lemma DogReadsBack(x: DogRepr, rest: File)
    requires Inverts(LootFields, ParseLoot)
    ensures ParseDog(DogFields(x) + rest) == Some((x, rest))
  {
    CountedInverts(LootFields, ParseLoot, x.bag, rest);
    hide Inverts, ParseCounted, CountedFields, LootFields, ParseLoot;
    var file := DogFields(x) + rest;
    assert file[9..] == CountedFields(LootFields, x.bag) + rest;
    assert StartsLikeDog(file);
  }

  lemma DogInverts()
    ensures Inverts(DogFields, ParseDog) && Prolongs(ParseDog)
  {
    LootInverts();
    forall file: File, more: File ensures ProlongsAt(ParseDog, file, more) {
      DogProlongs(file, more);
    }
    forall x: DogRepr, rest: File ensures ParseDog(DogFields(x) + rest) == Some((x, rest)) {
      DogReadsBack(x, rest);
    }
  }

  lemma DogProlongs(file: File, more: File)
    requires Prolongs(ParseLoot)
    ensures ProlongsAt(ParseDog, file, more)
  {
    hide Prolongs;
    if StartsLikeDog(file) {
      CountedProlongs(ParseLoot, file[9..], more);
      assert (file + more)[9..] == file[9..] + more;
      hide ParseCounted;
    }
  }

  lemma PlayerInverts()
    ensures Inverts(PlayerFields, ParsePlayer) && Prolongs(ParsePlayer)
  {
    DogInverts();
    hide DogFields, ParseDog;
    forall file: File, more: File ensures ProlongsAt(ParsePlayer, file, more) {
      if |file| >= 3 {
        assert ProlongsAt(ParseDog, file[3..], more);
        assert (file + more)[3..] == file[3..] + more;
      }
    }
    forall x: PlayerRepr, rest: File ensures ParsePlayer(PlayerFields(x) + rest) == Some((x, rest)) {
      assert (PlayerFields(x) + rest)[3..] == DogFields(x.dog) + rest;
    }
  }

  lemma EntriesInvert()
    ensures Inverts(PlayerEntry, ParsePlayerEntry) && Prolongs(ParsePlayerEntry)
    ensures Inverts(TokenEntry, ParseTokenEntry) && Prolongs(ParseTokenEntry)
  {
    PlayerInverts();
    hide PlayerFields, ParsePlayer;
    forall file: File, more: File ensures ProlongsAt(ParsePlayerEntry, file, more) {
      if file != [] {
        assert ProlongsAt(ParsePlayer, file[1..], more);
        assert (file + more)[1..] == file[1..] + more;
      }
    }
    forall x: (nat, PlayerRepr), rest: File ensures ParsePlayerEntry(PlayerEntry(x) + rest) == Some((x, rest)) {
      assert (PlayerEntry(x) + rest)[1..] == PlayerFields(x.1) + rest;
    }
    forall file: File, more: File ensures ProlongsAt(ParseTokenEntry, file, more) {
      if |file| >= 2 {
        assert (file + more)[2..] == file[2..] + more;
      }
    }
    forall x: (nat, Token), rest: File ensures ParseTokenEntry(TokenEntry(x) + rest) == Some((x, rest)) {
      assert (TokenEntry(x) + rest)[2..] == rest;
    }
  }

  lemma SessionInverts()
    ensures Inverts(SessionFields, ParseSession) && Prolongs(ParseSession)
  {
    LootInverts();
    forall file: File, more: File ensures ProlongsAt(ParseSession, file, more) {
      if file != [] {
        CountedProlongs(ParseLoot, file[1..], more);
        assert (file + more)[1..] == file[1..] + more;
      }
    }
    forall x: SessionRepr, rest: File ensures ParseSession(SessionFields(x) + rest) == Some((x, rest)) {
      CountedInverts(LootFields, ParseLoot, x.lost, rest);
      assert (SessionFields(x) + rest)[1..] == CountedFields(LootFields, x.lost) + rest;
    }
  }

  // ---------------------------------------------------------------------------------------------
  // The whole file

  lemma GameInverts(r: GameRepr, rest: File)
    ensures ParseGame(GameFields(r) + rest) == Some((r, rest))
  {
    EntriesInvert();
    SessionInverts();
    hide Inverts, ParseCounted, CountedFields, MapOf, Pairs;
    var sessions := CountedFields(SessionFields, r.sessions) + rest;
    var tokens := CountedFields(TokenEntry, Pairs(r.tokens.tokens)) + sessions;
    CountedInverts(SessionFields, ParseSession, r.sessions, rest);
    CountedInverts(TokenEntry, ParseTokenEntry, Pairs(r.tokens.tokens), sessions);
    CountedInverts(PlayerEntry, ParsePlayerEntry, Pairs(r.tokens.players), tokens);
    assert GameFields(r) + rest == CountedFields(PlayerEntry, Pairs(r.tokens.players)) + tokens;
    MapOfPairs(r.tokens.players);
    MapOfPairs(r.tokens.tokens);
  }

  lemma GameProlongs(file: File, more: File)
    ensures ProlongsAt(ParseGame, file, more)
  {
    EntriesInvert();
    SessionInverts();
    hide Prolongs, ParseCounted, MapOf;
    if ParseGame(file).Some? {
      CountedProlongs(ParsePlayerEntry, file, more);
      var rest := ParseCounted(ParsePlayerEntry, file).value.1;
      CountedProlongs(ParseTokenEntry, rest, more);
      CountedProlongs(ParseSession, ParseCounted(ParseTokenEntry, rest).value.1, more);
    }
  }

  /** Of the beginnings of a written file, the whole one alone can be read, and gives back what was written. */
  lemma ReadsBackIff(r: GameRepr, n: nat)
    requires n <= |GameFields(r)|
    ensures Read(GameFields(r)[..n]) == if n == |GameFields(r)| then Some(r) else None
  {
    hide GameFields, ParseGame;
    var file := GameFields(r);
    GameInverts(r, []);
    assert file + [] == file && file[..|file|] == file;
    if n < |file| {
      assert file[..n] + file[n..] == file;
      GameProlongs(file[..n], file[n..]);
    }
  }

  lemma WholeFileIsRead(r: GameRepr)
    ensures Read(GameFields(r)) == Some(r)
  {
    hide GameFields, Read;
    ReadsBackIff(r, |GameFields(r)|);
    assert GameFields(r)[..|GameFields(r)|] == GameFields(r);
  }
}
