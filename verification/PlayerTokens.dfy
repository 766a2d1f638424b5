/** The index of players by token and by id, as an object whose three maps change together. */
module PlayerTokens {
  import opened Wrappers
  import opened Dogs
  import opened GameSessions
  import SessionModel
  import opened Registry

  /** A player points at its session and its dog. */
  datatype PlayerRef = PlayerRef(id: nat, name: string, session: GameSession, dog: Dog)

  function Plain(p: PlayerRef): Player { Player(p.id, p.name, p.session.m.id, p.dog.id) }

  /** A found player, as a value. */
  function PlainResult(r: Result<PlayerRef, LookupError>): Result<Player, LookupError> {
    match r case Ok(p) => Ok(Plain(p)) case Err(e) => Err(e)
  }

  // ---------------------------------------------------------------------------------------------
  // The text of a token

  function HexDigit(d: nat): char
    requires d < 16
  {
    "0123456789abcdef"[d]
  }

  function Hex(n: nat): string {
    if n < 16 then [HexDigit(n)] else Hex(n / 16) + [HexDigit(n % 16)]
  }

  function Zeros(n: nat): string { seq(n, _ => '0') }

  /** Two random numbers in hexadecimal, filled up from the left. */
  function TokenText(first: nat, second: nat): Token {
    var digits := Hex(first) + Hex(second);
    if |digits| < TOKEN_LENGTH then Zeros(TOKEN_LENGTH - |digits|) + digits else digits
  }

  function Power16(k: nat): nat { if k == 0 then 1 else 16 * Power16(k - 1) }

  lemma {:induction false} HexLength(n: nat, k: nat)
    requires k > 0 && n < Power16(k)
    ensures |Hex(n)| <= k
  {
    if n >= 16 {
      HexLength(n / 16, k - 1);
    }
  }

  lemma SixteenDigits()
    ensures Power16(16) == 0x1_0000_0000_0000_0000
  {
    assert Power16(4) == 0x1_0000;
    assert Power16(8) == 0x1_0000_0000;
    assert Power16(12) == 0x1_0000_0000_0000;
  }

  /** Two random numbers of 64 bits make a token of the length that lookups ask for. */
  lemma TokensHaveTheRightLength(first: nat, second: nat)
    requires first < 0x1_0000_0000_0000_0000 && second < 0x1_0000_0000_0000_0000
    ensures |TokenText(first, second)| == 32 == TOKEN_LENGTH
  {
    SixteenDigits();
    HexLength(first, 16);
    HexLength(second, 16);
  }

  const DIGITS := "0123456789abcdef"

  /** The text is a numeral in base 16, least digit last, that stands for n. */
  ghost predicate Denotes(text: string, n: nat) {
    if text == "" then n == 0
    else text[|text| - 1] == DIGITS[n % 16] && Denotes(text[..|text| - 1], n / 16)
  }

  lemma {:induction false} HexDenotes(n: nat)
    ensures Denotes(Hex(n), n) && |Hex(n)| > 0 && (n > 0 ==> Hex(n)[0] != '0')
  {
    if n >= 16 {
      HexDenotes(n / 16);
      assert Hex(n)[..|Hex(n)| - 1] == Hex(n / 16);
    } else {
      assert Hex(n)[..0] == "";
    }
  }

  /** A token is zeros followed by the numerals of the two numbers, without zeros in front of their own. */
  lemma TokenIsTwoNumerals(first: nat, second: nat) returns (zeros: nat, a: string, b: string)
    ensures TokenText(first, second) == seq(zeros, _ => '0') + a + b
    ensures Denotes(a, first) && Denotes(b, second)
    ensures (first > 0 ==> a[..1] != "0") && (second > 0 ==> b[..1] != "0") && |a| > 0 && |b| > 0
    ensures zeros > 0 ==> zeros + |a| + |b| == 32
  {
    a, b := Hex(first), Hex(second);
    HexDenotes(first);
    HexDenotes(second);
    zeros := if |a + b| < TOKEN_LENGTH then TOKEN_LENGTH - |a + b| else 0;
  }

  class PlayerTokens {
    var toId: map<Token, nat>
    var players: map<nat, PlayerRef>
    var ofId: map<nat, Token>

    constructor ()
      ensures State() == NO_TOKENS && players == map[]
    {
      toId, players, ofId := map[], map[], map[];
    }

    function State(): Tokens
      reads this
    {
      Tokens(toId, map id | id in players :: Plain(players[id]), ofId)
    }

    method AddPlayer(player: PlayerRef, token: Token)
      modifies this
      ensures State() == WithPlayer(old(State()), Plain(player), token)
      ensures players == old(players)[player.id := player]
      ensures toId == if token in old(toId) then old(toId) else old(toId)[token := player.id]
      ensures ofId == if player.id in old(ofId) then old(ofId) else old(ofId)[player.id := token]
    {
      toId := Emplace(toId, token, player.id);
      ofId := Emplace(ofId, player.id, token);
      players := players[player.id := player];
    }

    /** Only tokens of the right length are looked up at all. */
    method FindPlayerByToken(token: Token) returns (r: Result<PlayerRef, LookupError>)
      ensures PlainResult(r) == ByToken(State(), token)
      ensures r.Ok? ==> token in toId && toId[token] in players && r.value == players[toId[token]]
    {
      if |token| != TOKEN_LENGTH {
        return Err(InvalidToken);
      }
      if token !in toId {
        return Err(UnknownToken);
      }
      var id := toId[token];
      r := if id in players then Ok(players[id]) else Err(OutOfRange);
    }

    method FindTokenByPlayerId(id: nat) returns (r: Result<Token, LookupError>)
      ensures r == if id in ofId then Ok(ofId[id]) else Err(InvalidPlayerId)
    {
      if id !in ofId {
        return Err(InvalidPlayerId);
      }
      r := Ok(ofId[id]);
    }

    method FindPlayerById(id: nat) returns (r: Result<PlayerRef, LookupError>)
      ensures PlainResult(r) == ById(State(), id)
    {
      if id !in ofId {
        return Err(InvalidPlayerId);
      }
      r := FindPlayerByToken(ofId[id]);
    }

    /** The dog leaves its session, and the player all three maps. */
    method RemovePlayer(id: nat)
      requires id in players && id in ofId && players[id].id == id && players[id].session.Valid()
      modifies this, players[id].session`dogs, players[id].session`history
      ensures State() == WithoutPlayer(old(State()), id) && players == old(players) - {id}
      ensures old(players[id].session).Valid()
      ensures old(players[id].session).dogs == old(players[id].session.dogs) - {old(players[id].dog.id)}
      ensures old(players[id].session).State() ==
          SessionModel.AfterRemoveDog(old(players[id].session.State()), old(players[id].dog.id))
    {
      hide GameSession.State, GameSession.Valid, SessionModel.AfterRemoveDog;
      var player := players[id];
      player.session.RemoveDog(player.dog.id);
      toId := toId - {ofId[id]};
      ofId := ofId - {player.id};
      players := players - {player.id};
    }
  }
}
