/** Cards, their ids 0..51 and the standard deck. */
module Cards {
  import opened Common

  type Rank = r: int | 0 <= r < 13
  type Suit = s: int | 0 <= s < 4

  datatype Card = Card(rank: Rank, suit: Suit)

  const DECK_SIZE := 52

  /** `card`: the checked constructor, which refuses numbers that are no rank or suit. */
  function MakeCard(rank: int, suit: int): Option<Card> {
    if rank < 0 || rank > 12 || suit < 0 || suit > 3 then None else Some(Card(rank, suit))
  }

  function CardId(c: Card): nat {
    c.rank * 4 + c.suit
  }

  function CardFromId(id: int): Option<Card> {
    if id < 0 || id > 51 then None else MakeCard(id / 4, id % 4)
  }

  /** Ids and cards are in bijection: every card has its id, every id 0..51 its card, nothing else does. */
  lemma CardIdBijection(c: Card, id: int)
    ensures CardFromId(CardId(c)) == Some(c)
    ensures CardFromId(id).Some? <==> 0 <= id < DECK_SIZE
    ensures CardFromId(id).Some? ==> CardId(CardFromId(id).value) == id
  {
    assert CardId(c) / 4 == c.rank && CardId(c) % 4 == c.suit;
  }

  /** Ids go up rank by rank, and within a rank suit by suit. */
  lemma IdsAscend(a: Card, b: Card)
    ensures CardId(a) < CardId(b) <==> a.rank < b.rank || (a.rank == b.rank && a.suit < b.suit)
  {
  }

  /** The deck lists the 52 cards in id order. */
  method StandardDeck() returns (deck: seq<Card>)
    ensures |deck| == DECK_SIZE
    ensures forall i :: 0 <= i < DECK_SIZE ==> CardId(deck[i]) == i
  {
    deck := [];
    for rank := 0 to 13
      invariant |deck| == 4 * rank
      invariant forall i :: 0 <= i < |deck| ==> CardId(deck[i]) == i
    {
      for suit := 0 to 4
        invariant |deck| == 4 * rank + suit
        invariant forall i :: 0 <= i < |deck| ==> CardId(deck[i]) == i
      {
        deck := deck + [Card(rank, suit)];
      }
    }
  }

  // ---------------------------------------------------------------- text

  const RANK_CHARS := "23456789TJQKA"
  const SUIT_CHARS := "cdhs"

  function IndexOf(s: string, c: char): (i: int)
    ensures -1 <= i < |s|
    ensures i >= 0 ==> s[i] == c
    ensures i == -1 <==> c !in s
  {
    if s == [] then -1
    else if s[0] == c then 0
    else
      var i := IndexOf(s[1..], c);
      if i < 0 then -1 else i + 1
  }

  function Upper(c: char): char {
    if 'a' <= c <= 'z' then c - 'a' + 'A' else c
  }

  function Lower(c: char): char {
    if 'A' <= c <= 'Z' then c - 'A' + 'a' else c
  }

  /** What the program's trim takes off: white space and line ends. */
  predicate Blank(c: char) {
    var n := c as int;
    || 9 <= n <= 13 || n == 0x20 || n == 0xA0 || n == 0x1680 || 0x2000 <= n <= 0x200A
    || n == 0x2028 || n == 0x2029 || n == 0x202F || n == 0x205F || n == 0x3000 || n == 0xFEFF
  }

  function TrimLeft(s: string): string {
    if s != [] && Blank(s[0]) then TrimLeft(s[1..]) else s
  }

  function TrimRight(s: string): string {
    if s != [] && Blank(s[|s| - 1]) then TrimRight(s[..|s| - 1]) else s
  }

  function FormatCard(c: Card): (text: string)
    ensures |text| == 2
  {
    [RANK_CHARS[c.rank], SUIT_CHARS[c.suit]]
  }

  /** `parseCard`: a rank and a suit letter in either case, between blanks. */
  function ParseCard(text: string): Option<Card> {
    var raw := TrimRight(TrimLeft(text));
    if |raw| != 2 then None
    else
      var rank, suit := IndexOf(RANK_CHARS, Upper(raw[0])), IndexOf(SUIT_CHARS, Lower(raw[1]));
      if rank < 0 || suit < 0 then None else MakeCard(rank, suit)
  }

  /** Deuce to nine by their digits, then T, J, Q, K and A; clubs, diamonds, hearts, spades by their initials. */
  lemma TextNames(c: Card)
    ensures c.rank <= 7 ==> FormatCard(c)[0] == '2' + c.rank as char
    ensures c.rank > 7 ==> FormatCard(c)[0] == ['T', 'J', 'Q', 'K', 'A'][c.rank - 8]
    ensures FormatCard(c)[1] == ['c', 'd', 'h', 's'][c.suit]
  {
  }

  /** The rank and suit letters are all different, so an index names its letter and a letter its index. */
  lemma LettersDiffer(c: Card)
    ensures IndexOf(RANK_CHARS, RANK_CHARS[c.rank]) == c.rank && IndexOf(SUIT_CHARS, SUIT_CHARS[c.suit]) == c.suit
    ensures Upper(RANK_CHARS[c.rank]) == RANK_CHARS[c.rank] && Lower(SUIT_CHARS[c.suit]) == SUIT_CHARS[c.suit]
    ensures !Blank(RANK_CHARS[c.rank]) && !Blank(SUIT_CHARS[c.suit])
  {
    hide IndexOf;
  }

  /** Text round trip: every card reads back from its text, and what reads as a card is that text up to blanks and case. */
  lemma TextRoundTrip(c: Card, text: string)
    ensures ParseCard(FormatCard(c)) == Some(c)
    ensures var raw := TrimRight(TrimLeft(text));
      ParseCard(text) == Some(c) <==> |raw| == 2 && [Upper(raw[0]), Lower(raw[1])] == FormatCard(c)
  {
    hide IndexOf;
    LettersDiffer(c);
    var s := FormatCard(c);
    assert TrimLeft(s) == s && TrimRight(s) == s;
  }
}
