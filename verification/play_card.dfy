/** A playing card (`PlayCard` in src/poker/cards/play_card.rs) and its two-character parser. */
module PlayCards {
  import opened Wrappers
  import opened DeckCards
  import opened Suits

  datatype PlayCard = PlayCard(value: DeckCard, suit: Suit)

  /** A parse failure; the sub-parsers' errors are forwarded unchanged. */
  datatype CardError =
    | WrongLength
    | BadDeckCard(deckCardError: DeckCardError)
    | BadSuit(suitError: SuitError)

  /** The two-character notation of a card, rank symbol then suit symbol. */
  function Notation(c: PlayCard): string
  {
    [CardNotation[Ordinal(c.value)]] + Symbol(c.suit)
  }

  /** `PlayCard::from_string`: length check, then the rank of character 0, then the suit of character 1. */
  function FromString(input: string): (r: Result<PlayCard, CardError>)
    ensures |input| != 2 ==> r == Err(WrongLength)
    ensures r.Ok? <==> |input| == 2 && DeckCards.FromString(input[0]).Ok? && Suits.FromString(input[1..]).Ok?
    ensures r.Ok? ==> CardNotation[Ordinal(r.value.value)] == input[0] && Symbol(r.value.suit) == input[1..]
    ensures |input| == 2 && input[0] !in CardNotation ==> r == Err(BadDeckCard(NoSuchDeckCard))
  {
    if |input| != 2 then Err(WrongLength)
    else
      assert input[1..2] == input[1..];
      match DeckCards.FromString(input[0])
      case Err(e) => Err(BadDeckCard(e))
      case Ok(value) =>
        match Suits.FromString(input[1..2])
        case Err(e) => Err(BadSuit(e))
        case Ok(suit) => Ok(PlayCard(value, suit))
  }

  /** Every card is parsed back from its notation: any valid rank symbol followed by a valid suit symbol parses. */
  lemma FromStringRoundTrip(c: PlayCard)
    ensures FromString(Notation(c)) == Ok(c)
  {
    var n := Notation(c);
    assert n[0] == CardNotation[Ordinal(c.value)];
    assert n[1..2] == Symbol(c.suit);
    FromStringCoversAllRanks(c.value);
    assert DeckCards.FromString(n[0]) == Ok(c.value);
    Suits.FromStringRoundTrip(c.suit);
    assert Suits.FromString(n[1..2]) == Ok(c.suit);
  }

  /** A known rank symbol followed by an unknown suit symbol fails in the suit parser. */
  lemma FromStringBadSuit(input: string)
    requires |input| == 2 && input[0] in CardNotation
    requires forall s: Suit :: Symbol(s) != input[1..]
    ensures FromString(input) == Err(BadSuit(NoSuchSuit))
  {
    assert input[1..2] == input[1..];
  }

  /** c is a card of the line with no card ranked above it. */
  ghost predicate IsTopCard(cards: seq<PlayCard>, c: PlayCard)
  {
    c in cards && forall d :: d in cards ==> Ordinal(d.value) <= Ordinal(c.value)
  }

  /**
   * `PlayCard::calc_highest_card`, whose definition is not part of this model:
   * the first card of the line with the highest rank.
   */
  function Highest(cards: seq<PlayCard>): (c: PlayCard)
    requires |cards| > 0
    ensures IsTopCard(cards, c)
  {
    if |cards| == 1 then cards[0]
    else
      var rest := Highest(cards[1..]);
      if Ordinal(rest.value) <= Ordinal(cards[0].value) then cards[0] else rest
  }
}
