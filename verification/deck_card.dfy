/**
 * Card ranks (`DeckCard` in src/poker/cards/deck_card.rs): thirteen values
 * ordered by declaration, and the parser from a notation character.
 */
module DeckCards {
  import opened Wrappers

  /** A rank; Rust derives `Ord` from this declaration order. */
  datatype DeckCard =
    | Two | Three | Four | Five | Six | Seven | Eight | Nine
    | Ten | Jack | Queen | King | Ace

  /** Every rank, in declaration order. */
  const AllDeckCards: seq<DeckCard> :=
    [Two, Three, Four, Five, Six, Seven, Eight, Nine, Ten, Jack, Queen, King, Ace]

  /** `CARD_NOTATION`: the symbol of the rank with ordinal i is at index i. */
  const CardNotation: seq<char> :=
    ['2', '3', '4', '5', '6', '7', '8', '9', 'T', 'J', 'Q', 'K', 'A']

  datatype DeckCardError = NoSuchDeckCard

  /** The declaration ordinal, what `enum_index` returns. */
  function Ordinal(d: DeckCard): (i: nat)
    ensures i < |AllDeckCards|
  {
    match d
    case Two => 0
    case Three => 1
    case Four => 2
    case Five => 3
    case Six => 4
    case Seven => 5
    case Eight => 6
    case Nine => 7
    case Ten => 8
    case Jack => 9
    case Queen => 10
    case King => 11
    case Ace => 12
  }

  /** `index_enum`: the rank with the given ordinal. */
  function FromOrdinal(i: nat): (d: DeckCard)
    requires i < |AllDeckCards|
    ensures Ordinal(d) == i
  {
    DeclarationOrder();
    AllDeckCards[i]
  }

  /**
   * Ordinals are positions in the declaration: the rank at position i has
   * ordinal i, and every rank sits at its ordinal. Kept apart from the
   * contract of `Ordinal` so that only the proofs that need it pay for it.
   */
  lemma DeclarationOrder()
    ensures forall i :: 0 <= i < |AllDeckCards| ==> Ordinal(AllDeckCards[i]) == i
    ensures forall d :: AllDeckCards[Ordinal(d)] == d
  {
  }

  /**
   * Strict rank order, as Rust's derived `Ord` compares ranks: irreflexive,
   * with nothing above the Ace and nothing below the Two.
   */
  predicate Below(a: DeckCard, b: DeckCard): (r: bool)
    ensures r ==> a != b && a != Ace && b != Two
  {
    Ordinal(a) < Ordinal(b)
  }

  /** Two ranks with the same ordinal are the same rank. */
  lemma OrdinalInjective(a: DeckCard, b: DeckCard)
    ensures Ordinal(a) == Ordinal(b) ==> a == b
  {
  }

  /** Rank order is a strict total order that follows the declaration. */
  lemma DeclarationOrderIsTotal(a: DeckCard, b: DeckCard, c: DeckCard)
    ensures !Below(a, a)
    ensures Below(a, b) && Below(b, c) ==> Below(a, c)
    ensures a != b ==> Below(a, b) || Below(b, a)
    ensures forall i, j :: 0 <= i < j < |AllDeckCards| ==> Below(AllDeckCards[i], AllDeckCards[j])
  {
    DeclarationOrder();
    OrdinalInjective(a, b);
  }

  /** `iter().position`: the first index at which x occurs in s. */
  function Position<T(==)>(s: seq<T>, x: T): (r: Option<nat>)
    ensures r.None? <==> x !in s
    ensures r.Some? ==> r.value < |s| && s[r.value] == x && x !in s[..r.value]
  {
    if |s| == 0 then None
    else if s[0] == x then Some(0)
    else
      match Position(s[1..], x)
      case None => None
      case Some(i) =>
        assert s[..i + 1] == [s[0]] + s[1..][..i];
        Some(i + 1)
  }

  /** `DeckCard::from_string`: looks the symbol up in `CARD_NOTATION`. */
  function FromString(symbol: char): (r: Result<DeckCard, DeckCardError>)
    ensures r.Ok? <==> symbol in CardNotation
    ensures r.Ok? ==> CardNotation[Ordinal(r.value)] == symbol
  {
    match Position(CardNotation, symbol)
    case None => Err(NoSuchDeckCard)
    case Some(i) => Ok(FromOrdinal(i))
  }

  /** Every rank is produced, by the symbol at its ordinal; so '2' gives Two and 'A' gives Ace. */
  lemma FromStringCoversAllRanks(d: DeckCard)
    ensures FromString(CardNotation[Ordinal(d)]) == Ok(d)
  {
    var c := CardNotation[Ordinal(d)];
    var r := FromString(c);
    assert r.Ok?;
    NotationDistinct(Ordinal(r.value), Ordinal(d));
    OrdinalInjective(r.value, d);
  }

  /** The notation gives each rank its own symbol. */
  lemma NotationDistinct(i: nat, j: nat)
    requires i < |CardNotation| && j < |CardNotation| && CardNotation[i] == CardNotation[j]
    ensures i == j
  {
  }

  /** Distinct accepted symbols give distinct ranks. */
  lemma FromStringInjective(c1: char, c2: char)
    requires FromString(c1).Ok? && FromString(c2).Ok?
    ensures FromString(c1) == FromString(c2) ==> c1 == c2
  {
  }
}
